/** One event loop under concurrency (crates/dispatch/src/lib.rs): any number of
    `schedule` calls, the loop thread, and any number of `stop` calls, interleaved at
    their atomic pieces: lock regions, `fetch_add`/`fetch_sub`, taking the sender,
    `call_soon_threadsafe`, loop close, join and drain. */
module Protocol {
  import opened Wrappers

  // ----- Data

  /** Where a `schedule` call stands. `Accepted` and `Failed` have returned. */
  datatype Pc =
    | Counted
    | AllocFailed
    | Built
    | Inserted
    | Accepted
    | Refused
    | SendTake
    | SendLower
    | SendDeliver
    | Failed

  /** Who took a sender: the request's own `schedule` call, or a worker's `finish`. */
  datatype By = Scheduler | Worker(index: nat)

  /** A response channel. `Dropping` has lost its sender to `Drop` and not yet
      lowered the gauge. */
  datatype Channel = Unbuilt | Armed | Taken(who: By) | Lowered(who: By) | Dropping | Resolved

  /** What the receiver got: what a turn's `finish` sent, the 500 of a disposal, the
      500 of a refused `schedule`, or nothing, the sender having been dropped. */
  datatype Answer = FromTurn | FromDisposal | FromSchedule | SenderDropped

  /** A request: its `schedule` call, its channel and what came out of it, and the
      part of its task that other threads can see. `listed` means registered with
      asyncio and no unregistering tried since; of the done callbacks `added`, some
      were `removed`, some are `pending` in the task, some `handed` to `call_soon`. */
  datatype Request = Request(
    pc: Pc, channel: Channel, answers: seq<Answer>,
    finished: bool, registered: bool, listed: bool, added: nat, removed: nat, pending: nat, handed: nat)

  /** The parts of a turn or a disposal: running Python, then `finish`. */
  datatype Stage = Working | Mark | Unlist | Unregister | Fire | Take | Lower | Deliver

  datatype Job = Job(request: nat, stage: Stage, wasRegistered: bool, firing: nat)

  datatype Role = LoopThread | Joining | Draining | Disposing | Stopped

  /** A thread that finishes tasks: the loop thread, or a `stop` call with the tasks
      it has drained and not yet disposed of. */
  datatype Thread = Thread(role: Role, left: set<nat>, job: Option<Job>)

  /** The loop runs, has left `run_forever`, or is dead, closed or not. */
  datatype Phase = Running | Ended | Dead(closed: bool)

  /** `workers[0]` is the loop thread and `workers[1]` the `stop` call that won the
      join handle. `early` records that a `stop` drained before the loop was dead,
      `swept` that the winner has drained. */
  datatype State = State(
    requests: seq<Request>, gauge: int, live: set<nat>, phase: Phase, workers: seq<Thread>,
    early: bool, swept: bool)

  const COUNTED: Request := Request(Counted, Unbuilt, [], false, false, false, 0, 0, 0, 0)

  const STARTED: State := State([], 0, {}, Running, [Thread(LoopThread, {}, None)], false, false)

  // ----- Steps

  datatype Step =
    | Count
    | AllocFail(request: nat)
    | DropLower(request: nat)
    | Build(request: nat)
    | Insert(request: nat)
    | Enqueue(request: nat, ok: bool)
    | TakeBack(request: nat)
    | SendRefusal(request: nat)
    | Reclaim(request: nat)
    | BeginTurn(request: nat)
    | Register
    | EndTurn
    | AddCallback(request: nat)
    | RemoveCallback(request: nat)
    | EndLoop
    | Close(ok: bool)
    | CallStop
    | Join(worker: nat)
    | Drain(worker: nat)
    | Dispose(worker: nat, request: nat)
    | Advance(worker: nat)
    | ReturnStop(worker: nat)

  /** The thread still has `i` to deal with. */
  predicate Has(w: Thread, i: nat) {
    i in w.left || (w.job.Some? && w.job.value.request == i)
  }

  predicate Busy(s: State, k: nat) {
    k < |s.workers| && s.workers[k].job.Some? && s.workers[k].job.value.request < |s.requests|
  }

  predicate LoopWorksOn(s: State, stage: Stage) {
    Busy(s, 0) && s.workers[0].job.value.stage == stage
  }

  /** Nothing that survives can reach the task any more: it is off the live list,
      its `schedule` has returned, no thread has it. */
  predicate Unreachable(s: State, i: nat)
    requires i < |s.requests|
  {
    && (s.requests[i].pc.Accepted? || s.requests[i].pc.Failed?)
    && i !in s.live
    && (forall k :: 0 <= k < |s.workers| ==> !Has(s.workers[k], i))
  }

  predicate At(s: State, i: nat, pc: Pc) {
    i < |s.requests| && s.requests[i].pc == pc
  }

  predicate Enabled(s: State, step: Step) {
    match step
    case Count => true
    case AllocFail(i) => At(s, i, Counted)
    case DropLower(i) => i < |s.requests| && s.requests[i].channel.Dropping?
    case Build(i) => At(s, i, Counted)
    case Insert(i) => At(s, i, Built)
    case Enqueue(i, ok) => At(s, i, Inserted) && (ok ==> s.phase != Dead(true))
    case TakeBack(i) => At(s, i, Refused)
    case SendRefusal(i) => At(s, i, SendTake) || At(s, i, SendLower) || At(s, i, SendDeliver)
    case Reclaim(i) => i < |s.requests| && s.requests[i].channel.Armed? && Unreachable(s, i)
    case BeginTurn(i) =>
      At(s, i, Accepted) && !s.requests[i].finished && s.phase.Running? && |s.workers| > 0 && s.workers[0].job.None?
    case Register => LoopWorksOn(s, Working)
    case EndTurn => LoopWorksOn(s, Working)
    case AddCallback(i) => i < |s.requests|
    case RemoveCallback(i) => i < |s.requests| && s.requests[i].pending > 0
    case EndLoop => s.phase.Running? && |s.workers| > 0 && s.workers[0].job.None?
    case Close(_) => s.phase.Ended?
    case CallStop => true
    case Join(k) => k < |s.workers| && s.workers[k].role.Joining? && s.phase.Dead?
    case Drain(k) => k < |s.workers| && s.workers[k].role.Draining?
    case Dispose(k, i) =>
      k < |s.workers| && s.workers[k].role.Disposing? && s.workers[k].job.None? && i in s.workers[k].left
    case Advance(k) => Busy(s, k)
    case ReturnStop(k) => k < |s.workers| && s.workers[k].role.Disposing? && s.workers[k] == Thread(Disposing, {}, None)
  }

  function SetThread(s: State, k: nat, w: Thread): State
    requires k < |s.workers|
  {
    s.(workers := s.workers[k := w])
  }

  // ----- `finish`, ending with `ResponseChannel::send`

  /** What the next atomic piece of thread `k`'s job does to the request. */
  function Worked(r: Request, job: Job, k: nat): Request {
    match job.stage
    case Working => r
    case Mark => if r.finished then r else r.(finished := true, registered := false, pending := 0)
    case Unlist => r
    case Unregister => r.(listed := r.listed && !job.wasRegistered)
    case Fire => if job.firing == 0 then r else r.(handed := r.handed + 1)
    case Take => if r.channel.Armed? then r.(channel := Taken(Worker(k))) else r
    case Lower => r.(channel := Lowered(Worker(k)))
    case Deliver => r.(channel := Resolved, answers := r.answers + [if k == 0 then FromTurn else FromDisposal])
  }

  /** What is left of the job after that piece. */
  function Onward(r: Request, job: Job): Option<Job> {
    match job.stage
    case Working => Some(job.(stage := Mark))
    case Mark => Some(if r.finished then job.(stage := Take) else Job(job.request, Unlist, r.registered, r.pending))
    case Unlist => Some(job.(stage := Unregister))
    case Unregister => Some(job.(stage := Fire))
    case Fire => Some(if job.firing == 0 then job.(stage := Take) else job.(firing := job.firing - 1))
    case Take => if r.channel.Armed? then Some(job.(stage := Lower)) else None
    case Lower => Some(job.(stage := Deliver))
    case Deliver => None
  }

  /** How far a job is from its end. */
  function Rank(stage: Stage): nat {
    match stage
    case Working => 7
    case Mark => 6
    case Unlist => 5
    case Unregister => 4
    case Fire => 3
    case Take => 2
    case Lower => 1
    case Deliver => 0
  }

  function Advanced(s: State, k: nat): State
    requires Busy(s, k)
  {
    var job := s.workers[k].job.value;
    var i := job.request;
    s.(requests := s.requests[i := Worked(s.requests[i], job, k)],
       workers := s.workers[k := s.workers[k].(job := Onward(s.requests[i], job))],
       live := if job.stage.Unlist? then s.live - {i} else s.live,
       gauge := if job.stage.Lower? then s.gauge - 1 else s.gauge)
  }

  // ----- `schedule`, and other code that touches a task

  predicate OnRequest(step: Step) {
    step.AllocFail? || step.DropLower? || step.Build? || step.Insert? || step.Enqueue? || step.TakeBack?
    || step.SendRefusal? || step.Reclaim? || step.AddCallback? || step.RemoveCallback?
  }

  /** What the step does to its request. */
  function Moved(r: Request, step: Step): Request
    requires OnRequest(step) && (step.RemoveCallback? ==> r.pending > 0)
  {
    match step
    case AllocFail(_) => r.(pc := AllocFailed, channel := Dropping, answers := r.answers + [SenderDropped])
    case DropLower(_) => r.(channel := Resolved, pc := if r.pc.AllocFailed? then Failed else r.pc)
    case Build(_) => r.(pc := Built, channel := Armed)
    case Insert(_) => r.(pc := Inserted)
    case Enqueue(_, ok) => r.(pc := if ok then Accepted else Refused)
    case TakeBack(_) => r.(pc := SendTake)
    case SendRefusal(_) =>
      if r.pc.SendLower? then r.(channel := Lowered(Scheduler), pc := SendDeliver)
      else if r.pc.SendDeliver? then r.(channel := Resolved, answers := r.answers + [FromSchedule], pc := Failed)
      else if r.channel.Armed? then r.(channel := Taken(Scheduler), pc := SendLower)
      else r.(pc := Failed)
    case Reclaim(_) => r.(channel := Dropping, answers := r.answers + [SenderDropped])
    case AddCallback(_) =>
      if r.finished then r.(added := r.added + 1, handed := r.handed + 1)
      else r.(added := r.added + 1, pending := r.pending + 1)
    case RemoveCallback(_) => r.(removed := r.removed + 1, pending := r.pending - 1)
  }

  /** The step is a `fetch_sub`. */
  predicate Lowers(r: Request, step: Step) {
    step.DropLower? || (step.SendRefusal? && r.pc.SendLower?)
  }

  function Scheduled(s: State, step: Step): State
    requires OnRequest(step) && Enabled(s, step)
  {
    var i := step.request;
    s.(requests := s.requests[i := Moved(s.requests[i], step)],
       live := if step.Insert? then s.live + {i} else if step.TakeBack? then s.live - {i} else s.live,
       gauge := if Lowers(s.requests[i], step) then s.gauge - 1 else s.gauge)
  }

  // ----- All steps

  function Next(s: State, step: Step): State
    requires Enabled(s, step)
  {
    match step
    case Count => s.(requests := s.requests + [COUNTED], gauge := s.gauge + 1)
    case BeginTurn(i) => SetThread(s, 0, s.workers[0].(job := Some(Job(i, Working, false, 0))))
    case Register =>
      var i := s.workers[0].job.value.request;
      s.(requests := s.requests[i := s.requests[i].(registered := true, listed := true)])
    case EndTurn => SetThread(s, 0, s.workers[0].(job := None))
    case EndLoop => s.(phase := Ended)
    case Close(ok) => s.(phase := Dead(ok))
    case CallStop => s.(workers := s.workers + [Thread(if |s.workers| == 1 then Joining else Draining, {}, None)])
    case Join(k) => SetThread(s, k, s.workers[k].(role := Draining))
    case Drain(k) =>
      SetThread(s, k, Thread(Disposing, s.live, s.workers[k].job))
        .(live := {}, early := s.early || !s.phase.Dead?, swept := s.swept || k == 1)
    case Dispose(k, i) =>
      SetThread(s, k, s.workers[k].(left := s.workers[k].left - {i}, job := Some(Job(i, Working, false, 0))))
    case Advance(k) => Advanced(s, k)
    case ReturnStop(k) => SetThread(s, k, s.workers[k].(role := Stopped))
    case _ => Scheduled(s, step)
  }

  ghost predicate IsRun(run: seq<State>, steps: seq<Step>) {
    && |run| == |steps| + 1 && run[0] == STARTED
    && (forall i :: 0 <= i < |steps| ==> Enabled(run[i], steps[i]) && run[i + 1] == Next(run[i], steps[i]))
  }
}
