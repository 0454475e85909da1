/** `Server::shutdown_impl` over a pool of event loops (crates/core/src/lib.rs): signal,
    a timed drain, cancellation, a second timed drain, and only then stopping the loops,
    while `schedule` calls, loop threads and other callers go on in any interleaving. */
module Shutdown {
  import opened Wrappers
  import opened Utf8
  import opened Responses
  import P = Protocol
  import Safety = ProtocolSafety
  import Race = ProtocolRace
  import Release = ProtocolRelease

  /** Where a `shutdown_impl` call stands. The timed waits are `Draining` and
      `DrainingAgain`; `Stopping(j, w)` has stopped the loops before `j`, and with
      `w` present it is inside `stop` on loop `j`, as that loop's worker `w`. */
  datatype Call =
    | Signalling
    | TakingSlot
    | Draining
    | Cancelling(loop: nat)
    | DrainingAgain
    | Stopping(loop: nat, worker: Option<nat>)
    | Finished

  /** `slot` is the `serve_finished` receiver; `asked` holds, loop by loop, the tasks a
      cancellation was queued for. */
  datatype Server = Server(
    loops: seq<P.State>, signalled: bool, slot: bool, timedOut: bool, asked: seq<set<nat>>, calls: seq<Call>)

  datatype Step =
    | OnLoop(loop: nat, step: P.Step)
    | Invoke
    | Signal(call: nat)
    | TakeSlot(call: nat)
    | Wait(call: nat, drained: bool)
    | CancelLoop(call: nat)
    | WaitAgain(call: nat, drained: bool)
    | StopLoop(call: nat)
    | LoopStopped(call: nat)
    | Return(call: nat)

  function Fresh(size: nat): Server {
    Server(seq(size, _ => P.STARTED), false, true, false, seq(size, _ => {}), [])
  }

  predicate At(s: Server, c: nat, call: Call) {
    c < |s.calls| && s.calls[c] == call
  }

  predicate Enabled(s: Server, step: Step) {
    match step
    case OnLoop(j, step) => j < |s.loops| && !step.CallStop? && P.Enabled(s.loops[j], step)
    case Invoke => true
    case Signal(c) => At(s, c, Signalling)
    case TakeSlot(c) => At(s, c, TakingSlot)
    case Wait(c, _) => At(s, c, Draining)
    case CancelLoop(c) => c < |s.calls| && s.calls[c].Cancelling? && |s.asked| == |s.loops|
    case WaitAgain(c, _) => At(s, c, DrainingAgain)
    case StopLoop(c) => c < |s.calls| && s.calls[c].Stopping? && s.calls[c].worker.None? && s.calls[c].loop < |s.loops|
    case LoopStopped(c) =>
      && c < |s.calls| && s.calls[c].Stopping? && s.calls[c].worker.Some? && s.calls[c].loop < |s.loops|
      && s.calls[c].worker.value < |s.loops[s.calls[c].loop].workers|
      && s.loops[s.calls[c].loop].workers[s.calls[c].worker.value].role.Stopped?
    case Return(c) => At(s, c, Stopping(|s.loops|, None))
  }

  function Moved(s: Server, c: nat, call: Call): Server
    requires c < |s.calls|
  {
    s.(calls := s.calls[c := call])
  }

  function Next(s: Server, step: Step): Server
    requires Enabled(s, step)
  {
    match step
    case OnLoop(j, step) => s.(loops := s.loops[j := P.Next(s.loops[j], step)])
    case Invoke => s.(calls := s.calls + [Signalling])
    case Signal(c) => Moved(s, c, TakingSlot).(signalled := true)
    case TakeSlot(c) => Moved(s, c, if s.slot then Draining else Stopping(0, None)).(slot := false)
    case Wait(c, drained) =>
      Moved(s, c, if drained then Stopping(0, None) else Cancelling(0)).(timedOut := s.timedOut || !drained)
    case CancelLoop(c) =>
      var j := s.calls[c].loop;
      if j < |s.loops|
      then Moved(s, c, Cancelling(j + 1)).(asked := s.asked[j := s.asked[j] + s.loops[j].live])
      else Moved(s, c, DrainingAgain)
    case WaitAgain(c, _) => Moved(s, c, Stopping(0, None))
    case StopLoop(c) =>
      var j := s.calls[c].loop;
      Moved(s, c, Stopping(j, Some(|s.loops[j].workers|))).(loops := s.loops[j := P.Next(s.loops[j], P.CallStop)])
    case LoopStopped(c) => Moved(s, c, Stopping(s.calls[c].loop + 1, None))
    case Return(c) => Moved(s, c, Finished)
  }

  ghost predicate IsRun(size: nat, run: seq<Server>, steps: seq<Step>) {
    && |run| == |steps| + 1 && run[0] == Fresh(size)
    && (forall n :: 0 <= n < |steps| ==> Enabled(run[n], steps[n]) && run[n + 1] == Next(run[n], steps[n]))
  }

  // ----- Every loop runs by its own protocol

  predicate CallOk(s: Server, c: nat)
    requires c < |s.calls|
  {
    match s.calls[c]
    case Stopping(j, worker) =>
      && j <= |s.loops|
      && (worker.Some? ==> j < |s.loops| && 0 < worker.value < |s.loops[j].workers|)
      && (forall i :: 0 <= i < j ==> EverStopped(s.loops[i]))
    case Finished => forall i :: 0 <= i < |s.loops| ==> EverStopped(s.loops[i])
    case Cancelling(_) => s.timedOut && !s.slot
    case DrainingAgain => s.timedOut && !s.slot
    case Draining => !s.slot
    case _ => true
  }

  predicate EverStopped(l: P.State) {
    |l.workers| > 1
  }

  ghost predicate Inv(s: Server) {
    && |s.asked| == |s.loops|
    && (forall j :: 0 <= j < |s.loops| ==> Safety.Reachable(s.loops[j]))
    && (forall c :: 0 <= c < |s.calls| ==> CallOk(s, c))
    && (!s.timedOut ==> forall j :: 0 <= j < |s.asked| ==> s.asked[j] == {})
  }

  lemma {:induction false} LoopGrows(l: P.State, step: P.Step)
    requires P.Enabled(l, step)
    ensures |P.Next(l, step).workers| >= |l.workers|
  {
    hide P.Worked, P.Moved, P.Onward;
  }

  lemma {:induction false} OtherCalls(s: Server, t: Server, c: nat)
    requires c < |s.calls| && c < |t.calls| && t.calls[c] == s.calls[c] && CallOk(s, c)
    requires |t.loops| == |s.loops| && (s.timedOut ==> t.timedOut) && (t.slot ==> s.slot)
    requires forall j :: 0 <= j < |s.loops| ==> |t.loops[j].workers| >= |s.loops[j].workers|
    ensures CallOk(t, c)
  {
    assert forall j :: 0 <= j < |s.loops| && EverStopped(s.loops[j]) ==> EverStopped(t.loops[j]);
  }

  lemma {:induction false} LoopStepKeeps(s: Server, j: nat, step: P.Step)
    requires Inv(s) && j < |s.loops| && P.Enabled(s.loops[j], step)
    ensures Inv(s.(loops := s.loops[j := P.Next(s.loops[j], step)]))
  {
    hide P.Next, P.Enabled, Safety.Reachable;
    var t := s.(loops := s.loops[j := P.Next(s.loops[j], step)]);
    Safety.Reach(s.loops[j], step, P.Next(s.loops[j], step));
    LoopGrows(s.loops[j], step);
    forall c | 0 <= c < |t.calls| ensures CallOk(t, c) {
      OtherCalls(s, t, c);
    }
  }

  lemma {:induction false} CallStepKeeps(s: Server, t: Server, c: nat)
    requires Inv(s) && c < |s.calls| == |t.calls| && t.calls == s.calls[c := t.calls[c]]
    requires t.loops == s.loops && |t.asked| == |s.asked| && (s.timedOut ==> t.timedOut) && (t.slot ==> s.slot)
    requires !t.timedOut ==> t.asked == s.asked
    requires CallOk(t, c)
    ensures Inv(t)
  {
    hide Safety.Reachable;
    forall d | 0 <= d < |t.calls| ensures CallOk(t, d) {
      if d != c { OtherCalls(s, t, d); }
    }
  }

  lemma {:induction false} StopKeeps(s: Server, c: nat)
    requires Inv(s) && Enabled(s, StopLoop(c))
    ensures Inv(Next(s, StopLoop(c)))
  {
    hide P.Next, P.Enabled, Safety.Reachable;
    var t, j := Next(s, StopLoop(c)), s.calls[c].loop;
    var grown := s.(loops := t.loops);
    StopIsEnabled(s.loops[j]);
    LoopStepKeeps(s, j, P.CallStop);
    assert CallOk(grown, c);
    CallStepKeeps(grown, t, c);
  }

  lemma {:induction false} StepKeeps(s: Server, step: Step)
    requires Inv(s) && Enabled(s, step)
    ensures Inv(Next(s, step))
  {
    hide P.Next, P.Enabled, Inv;
    match step {
      case OnLoop(j, inner) => LoopStepKeeps(s, j, inner);
      case Invoke => InvokeKeeps(s);
      case StopLoop(c) => StopKeeps(s, c);
      case CancelLoop(c) => CancelKeeps(s, c);
      case LoopStopped(c) => LoopStoppedKeeps(s, c);
      case Return(c) => ReturnKeeps(s, c);
      case _ => EarlyCallKeeps(s, step);
    }
  }

  lemma {:induction false} InvokeKeeps(s: Server)
    requires Inv(s)
    ensures Inv(Next(s, Invoke))
  {
    hide Safety.Reachable, CallOk;
    var t := Next(s, Invoke);
    forall c | 0 <= c < |t.calls| ensures CallOk(t, c) {
      if c < |s.calls| { OtherCalls(s, t, c); } else { SignallingOk(t, c); }
    }
  }

  lemma {:induction false} SignallingOk(s: Server, c: nat)
    requires c < |s.calls| && s.calls[c].Signalling?
    ensures CallOk(s, c)
  {
  }

  lemma {:induction false} CancelKeeps(s: Server, c: nat)
    requires Inv(s) && Enabled(s, CancelLoop(c))
    ensures Inv(Next(s, CancelLoop(c)))
  {
    hide P.Next, P.Enabled, Safety.Reachable;
    assert CallOk(s, c);
    CallStepKeeps(s, Next(s, CancelLoop(c)), c);
  }

  lemma {:induction false} LoopStoppedKeeps(s: Server, c: nat)
    requires Inv(s) && Enabled(s, LoopStopped(c))
    ensures Inv(Next(s, LoopStopped(c)))
  {
    hide P.Next, P.Enabled, Safety.Reachable;
    assert CallOk(s, c);
    CallStepKeeps(s, Next(s, LoopStopped(c)), c);
  }

  lemma {:induction false} ReturnKeeps(s: Server, c: nat)
    requires Inv(s) && Enabled(s, Return(c))
    ensures Inv(Next(s, Return(c)))
  {
    hide P.Next, P.Enabled, Safety.Reachable;
    assert CallOk(s, c);
    CallStepKeeps(s, Next(s, Return(c)), c);
  }

  lemma {:induction false} EarlyCallKeeps(s: Server, step: Step)
    requires Inv(s) && Enabled(s, step) && (step.Signal? || step.TakeSlot? || step.Wait? || step.WaitAgain?)
    ensures Inv(Next(s, step))
  {
    hide P.Next, P.Enabled, Safety.Reachable;
    assert CallOk(s, step.call);
    EarlyCallOk(s, step);
    hide CallOk;
    CallStepKeeps(s, Next(s, step), step.call);
  }

  lemma {:induction false} EarlyCallOk(s: Server, step: Step)
    requires Enabled(s, step) && (step.Signal? || step.TakeSlot? || step.Wait? || step.WaitAgain?) && CallOk(s, step.call)
    ensures step.call < |Next(s, step).calls| && CallOk(Next(s, step), step.call)
  {
  }

  lemma {:induction false} StopIsEnabled(l: P.State)
    requires Safety.Reachable(l)
    ensures |l.workers| > 0 && P.Enabled(l, P.CallStop)
    ensures P.Next(l, P.CallStop).workers[..|l.workers|] == l.workers
    ensures |P.Next(l, P.CallStop).workers| == |l.workers| + 1
  {
    Safety.ReachableInv(l);
  }

  lemma {:induction false} FreshInv(size: nat)
    ensures Inv(Fresh(size))
  {
    Safety.ReachStart();
    hide Safety.Reachable;
  }

  lemma {:induction false} RunKeeps(size: nat, run: seq<Server>, steps: seq<Step>, n: nat)
    requires IsRun(size, run, steps) && n < |run|
    ensures Inv(run[n])
  {
    hide Inv, Next, Enabled;
    if n == 0 { FreshInv(size); } else {
      RunKeeps(size, run, steps, n - 1);
      StepKeeps(run[n - 1], steps[n - 1]);
    }
  }

  // ----- Cancellation only after the first drain timed out

  lemma {:induction false} CancellingStep(s: Server, step: Step, c: nat)
    requires Enabled(s, step) && c < |Next(s, step).calls| && Next(s, step).calls[c].Cancelling?
    ensures step == Wait(c, false) || (c < |s.calls| && s.calls[c].Cancelling?)
  {
    hide P.Next;
  }

  lemma {:induction false} CancellingSince(size: nat, run: seq<Server>, steps: seq<Step>, n: nat, c: nat)
    requires IsRun(size, run, steps) && n < |run| && c < |run[n].calls| && run[n].calls[c].Cancelling?
    ensures exists m :: 0 <= m < n && steps[m] == Wait(c, false)
  {
    hide Next, Enabled;
    if n > 0 {
      CancellingStep(run[n - 1], steps[n - 1], c);
      if steps[n - 1] != Wait(c, false) { CancellingSince(size, run, steps, n - 1, c); }
    }
  }

  /** Whatever the number of callers: a call cancels tasks only after its own first
      drain timed out, and no task is asked to cancel before some drain did. */
  lemma {:induction false} CancelsOnlyAfterTimeout(size: nat, run: seq<Server>, steps: seq<Step>, n: nat)
    requires IsRun(size, run, steps) && n < |steps|
    ensures steps[n].CancelLoop? ==> exists m :: 0 <= m < n && steps[m] == Wait(steps[n].call, false)
    ensures !run[n].timedOut ==> forall j :: 0 <= j < |run[n].asked| ==> run[n].asked[j] == {}
  {
    RunKeeps(size, run, steps, n);
    hide Next;
    if steps[n].CancelLoop? { CancellingSince(size, run, steps, n, steps[n].call); }
  }

  lemma {:induction false} NoNewStops(l: P.State, step: P.Step)
    requires P.Enabled(l, step) && !step.CallStop?
    ensures |P.Next(l, step).workers| == |l.workers|
    ensures forall w :: 0 <= w < |l.workers| && l.workers[w].role.Stopped? ==> P.Next(l, step).workers[w].role.Stopped?
  {
    hide P.Worked, P.Moved, P.Onward;
  }

  // ----- What a shutdown leaves

  /** Every `stop` that has not returned belongs to a call that waits for it. */
  ghost predicate Owned(s: Server) {
    forall j, w :: 0 <= j < |s.loops| && 0 < w < |s.loops[j].workers| ==>
      s.loops[j].workers[w].role.Stopped? || Waits(s, j, w)
  }

  predicate Waits(s: Server, j: nat, w: nat) {
    exists c :: 0 <= c < |s.calls| && s.calls[c] == Stopping(j, Some(w))
  }

  lemma {:induction false} OwnedStep(s: Server, step: Step)
    requires Inv(s) && Owned(s) && Enabled(s, step)
    ensures Owned(Next(s, step))
  {
    hide P.Next, P.Enabled, Safety.Reachable;
    var t := Next(s, step);
    if step.OnLoop? { NoNewStops(s.loops[step.loop], step.step); }
    if step.StopLoop? { StopIsEnabled(s.loops[s.calls[step.call].loop]); }
    forall j, w | 0 <= j < |t.loops| && 0 < w < |t.loops[j].workers|
      ensures t.loops[j].workers[w].role.Stopped? || Waits(t, j, w)
    {
      if w < |s.loops[j].workers| {
        if !s.loops[j].workers[w].role.Stopped? {
          var c :| 0 <= c < |s.calls| && s.calls[c] == Stopping(j, Some(w));
          assert (step.LoopStopped? && step.call == c) || t.calls[c] == s.calls[c];
        }
      } else {
        assert t.calls[step.call] == Stopping(j, Some(w));
      }
    }
  }

  lemma {:induction false} RunOwned(size: nat, run: seq<Server>, steps: seq<Step>, n: nat)
    requires IsRun(size, run, steps) && n < |run|
    ensures Owned(run[n])
  {
    hide Inv, Next, Enabled;
    if n > 0 {
      hide Owned;
      RunKeeps(size, run, steps, n - 1);
      RunOwned(size, run, steps, n - 1);
      OwnedStep(run[n - 1], steps[n - 1]);
    }
  }

  /** At least one call was made, and all have returned. */
  predicate AllReturned(s: Server) {
    s.calls != [] && forall c :: 0 <= c < |s.calls| ==> s.calls[c].Finished?
  }

  lemma {:induction false} LoopsDone(size: nat, run: seq<Server>, steps: seq<Step>, n: nat, j: nat)
    requires IsRun(size, run, steps) && n < |run| && AllReturned(run[n]) && j < |run[n].loops|
    ensures Safety.Reachable(run[n].loops[j]) && Race.StopsReturned(run[n].loops[j])
  {
    RunKeeps(size, run, steps, n);
    RunOwned(size, run, steps, n);
    hide Safety.Reachable, Next, Enabled;
    var s, l := run[n], run[n].loops[j];
    assert CallOk(s, 0);
    forall w | 1 <= w < |l.workers| ensures l.workers[w].role.Stopped? {
      assert l.workers[w].role.Stopped? || Waits(s, j, w);
    }
    assert l.phase.Dead? by {
      Safety.ReachableInv(l);
      assert Safety.ThreadOk(l, 1);
    }
  }

  /** Whole shutdown: when every call to `shutdown_impl` has returned and loop `j` was
      closed, each request whose `schedule` has returned there has been answered exactly
      once and is counted no more, and if accepted it is finished; and when no
      `schedule` is under way, the loop's registry is empty and its gauge zero. */
  lemma {:induction false} ShutdownResolves(size: nat, run: seq<Server>, steps: seq<Step>, n: nat, j: nat)
    requires IsRun(size, run, steps) && n < |run| && AllReturned(run[n])
    requires j < |run[n].loops| && run[n].loops[j].phase == P.Dead(true)
    ensures var l := run[n].loops[j];
            && (forall i :: 0 <= i < |l.requests| && Race.Returned(l.requests[i]) ==>
                  && |l.requests[i].answers| == 1 && Safety.Open(l.requests[i]) == 0 && i !in l.live
                  && (l.requests[i].pc.Accepted? ==> l.requests[i].finished && Race.Released(l.requests[i])))
            && (Race.Over(l) ==> l.live == {} && l.gauge == 0)
  {
    LoopsDone(size, run, steps, n, j);
    hide Safety.Reachable, Race.StopsReturned;
    var l := run[n].loops[j];
    forall i | 0 <= i < |l.requests| && Race.Returned(l.requests[i])
      ensures |l.requests[i].answers| == 1 && Safety.Open(l.requests[i]) == 0 && i !in l.live
      ensures l.requests[i].pc.Accepted? ==> l.requests[i].finished && Race.Released(l.requests[i])
    {
      Race.RaceSettles(l, i);
    }
    if Race.Over(l) { Race.RaceLeavesNothing(l); }
  }

  /** Once loop `j` is closed, a request counted in on it later is shut out in every
      state that follows. */
  lemma {:induction false} LateRequestsShutOut(size: nat, run: seq<Server>, steps: seq<Step>, n: nat, m: nat, j: nat, i: nat)
    requires IsRun(size, run, steps) && n <= m < |run| && j < |run[n].loops|
    requires run[n].loops[j].phase == P.Dead(true) && |run[n].loops[j].requests| <= i
    ensures j < |run[m].loops| && Race.ShutOut(run[m].loops[j], i)
    decreases m
  {
    hide Next, Enabled, Race.ShutOut;
    if m == n {
      Race.NoneYet(run[n].loops[j], i);
    } else {
      LateRequestsShutOut(size, run, steps, n, m - 1, j, i);
      ShutOutStep(run[m - 1], steps[m - 1], j, i);
    }
  }

  lemma {:induction false} ShutOutStep(s: Server, step: Step, j: nat, i: nat)
    requires Enabled(s, step) && j < |s.loops| && Race.ShutOut(s.loops[j], i)
    ensures j < |Next(s, step).loops| && Race.ShutOut(Next(s, step).loops[j], i)
  {
    hide P.Next, Race.ShutOut;
    if step.OnLoop? && step.loop == j {
      Race.StaysShutOut(s.loops[j], step.step, i);
    } else if step.StopLoop? && s.calls[step.call].loop == j {
      Race.StaysShutOut(s.loops[j], P.CallStop, i);
    }
  }

  /** What the client of an async request sees (`AppService::handle`): the response
      received, or a plain 500 if the sender was dropped. */
  function ClientSees(received: Option<HandlerResponse>): HandlerResponse {
    match received
    case Some(response) => response
    case None => HandlerResponse(500, PlainText, EncodeAll(Chars("Internal Server Error")))
  }

  /** What the receiver holds after `answer`, given what a turn would have sent. */
  function Received(answer: P.Answer, response: HandlerResponse): Option<HandlerResponse> {
    match answer
    case FromTurn => Some(response)
    case FromDisposal => Some(InternalError())
    case FromSchedule => Some(InternalError())
    case SenderDropped => None
  }

  /** What a turn sent is what the client sees; every other answer is the opaque 500. */
  lemma {:induction false} ClientSeesTurn(answer: P.Answer, response: HandlerResponse)
    ensures ClientSees(Received(answer, response)) == if answer.FromTurn? then response else InternalError()
    ensures ClientSees(None) == InternalError()
  {
  }

  /** A request counted in after its loop was closed is answered once with the opaque
      500 and leaves the gauge as it was, as soon as its `schedule` has returned and no
      `stop` is at work on it. */
  lemma {:induction false} LateRequestsGet500(size: nat, run: seq<Server>, steps: seq<Step>, n: nat, m: nat, j: nat, i: nat)
    requires IsRun(size, run, steps) && n <= m < |run| && j < |run[n].loops| && j < |run[m].loops|
    requires run[n].loops[j].phase == P.Dead(true) && |run[n].loops[j].requests| <= i < |run[m].loops[j].requests|
    requires Race.Returned(run[m].loops[j].requests[i])
    requires forall k :: 0 <= k < |run[m].loops[j].workers| ==> !P.Has(run[m].loops[j].workers[k], i)
    ensures var l := run[m].loops[j];
            && Safety.Open(l.requests[i]) == 0 && i !in l.live && |l.requests[i].answers| == 1
            && forall response :: ClientSees(Received(l.requests[i].answers[0], response)) == InternalError()
  {
    hide Next, Enabled, Safety.Reachable, EncodeAll, Chars, IsRun;
    LateRequestsShutOut(size, run, steps, n, m, j, i);
    RunKeeps(size, run, steps, m);
    var l := run[m].loops[j];
    Race.ShutOutIsAnswered(l, i);
    NotFromTurn(l, i);
  }

  lemma {:induction false} NotFromTurn(l: P.State, i: nat)
    requires Safety.Reachable(l) && Race.ShutOut(l, i) && i < |l.requests| && |l.requests[i].answers| == 1
    ensures !l.requests[i].answers[0].FromTurn?
  {
    Race.AnsweredAtMostOnce(l, i);
    assert l.requests[i].answers == [l.requests[i].answers[0]];
  }

  // ----- Callers one after the other

  /** Each call is made after the ones before have returned. */
  ghost predicate InTurn(run: seq<Server>, steps: seq<Step>) {
    |run| == |steps| + 1 && forall n :: 0 <= n < |steps| && steps[n].Invoke? ==> ReturnedBelow(run[n], |run[n].calls|)
  }

  predicate ReturnedBelow(s: Server, below: nat) {
    forall c :: 0 <= c < below && c < |s.calls| ==> s.calls[c].Finished?
  }

  ghost predicate OneByOne(s: Server) {
    && (s.calls != [] ==> ReturnedBelow(s, |s.calls| - 1))
    && (forall j :: 0 <= j < |s.loops| ==> LoopOneByOne(s.loops[j]))
  }

  predicate LoopOneByOne(l: P.State) {
    !l.early && |l.workers| > 0 && Release.AllStopped(l, |l.workers| - 1)
  }

  lemma {:induction false} OneByOneStep(s: Server, step: Step)
    requires Inv(s) && Owned(s) && OneByOne(s) && Enabled(s, step)
    requires step.Invoke? ==> ReturnedBelow(s, |s.calls|)
    ensures OneByOne(Next(s, step))
  {
    hide P.Next, P.Enabled, Safety.Reachable, Release.AllStopped;
    if step.OnLoop? {
      var l := s.loops[step.loop];
      Safety.ReachableInv(l);
      hide Safety.Inv;
      Release.OneAtATime(l, step.step);
    } else if step.StopLoop? {
      var l := s.loops[s.calls[step.call].loop];
      Safety.ReachableInv(l);
      hide Safety.Inv;
      StopIsEnabled(l);
      StopsInTurn(s, step.call);
      Release.OneAtATime(l, P.CallStop);
    }
  }

  /** When the one active call goes to stop a loop, earlier `stop`s there are over. */
  lemma {:induction false} StopsInTurn(s: Server, c: nat)
    requires Owned(s) && OneByOne(s) && Enabled(s, StopLoop(c))
    ensures var l := s.loops[s.calls[c].loop]; Release.AllStopped(l, |l.workers|)
  {
    var j := s.calls[c].loop;
    var l := s.loops[j];
    forall w | 1 <= w < |l.workers| ensures l.workers[w].role.Stopped? {
      assert l.workers[w].role.Stopped? || Waits(s, j, w);
    }
  }

  lemma {:induction false} RunOneByOne(size: nat, run: seq<Server>, steps: seq<Step>, n: nat)
    requires IsRun(size, run, steps) && InTurn(run, steps) && n < |run|
    ensures OneByOne(run[n])
  {
    hide Inv, Next, Enabled;
    if n > 0 {
      hide Owned, OneByOne;
      RunOneByOne(size, run, steps, n - 1);
      RunKeeps(size, run, steps, n - 1);
      RunOwned(size, run, steps, n - 1);
      OneByOneStep(run[n - 1], steps[n - 1]);
    }
  }

  /** The documented claim for one caller at a time: on every loop, in every state, a
      response that `finish` has released belongs to a task with nothing left to do. */
  lemma {:induction false} ReleasedLast(size: nat, run: seq<Server>, steps: seq<Step>, n: nat, j: nat, i: nat)
    requires IsRun(size, run, steps) && InTurn(run, steps) && n < |run| && j < |run[n].loops|
    requires i < |run[n].loops[j].requests| && Race.Released(run[n].loops[j].requests[i])
    ensures Release.Clean(run[n].loops[j].requests[i]) && i !in run[n].loops[j].live
  {
    RunOneByOne(size, run, steps, n);
    RunKeeps(size, run, steps, n);
    hide Next, Enabled, Safety.Reachable;
    assert LoopOneByOne(run[n].loops[j]);
    Release.ReleasedLastUnlessEarly(run[n].loops[j], i);
  }

  // ----- Two callers at once

  ghost predicate ReachableWith(size: nat, s: Server) {
    exists run, steps :: IsRun(size, run, steps) && run[|steps|] == s
  }

  lemma {:induction false} Reach(size: nat, s: Server, step: Step, t: Server)
    requires ReachableWith(size, s) && Enabled(s, step) && Next(s, step) == t
    ensures ReachableWith(size, t)
  {
    hide Next, Enabled;
    var run, steps :| IsRun(size, run, steps) && run[|steps|] == s;
    var longer, more := run + [t], steps + [step];
    assert IsRun(size, longer, more) && longer[|more|] == t;
  }

  lemma {:induction false} ReachFresh(size: nat)
    ensures ReachableWith(size, Fresh(size))
  {
    var steps: seq<Step> := [];
    assert IsRun(size, [Fresh(size)], steps) && [Fresh(size)][|steps|] == Fresh(size);
  }

  function TwoCallers(size: nat, slot: bool, first: Call, second: Call): Server {
    Fresh(size).(signalled := true, slot := slot, calls := [first, second])
  }

  /** A second caller finds the slot taken, and stops a loop while the first is still
      waiting for its drain. */
  lemma {:induction false} SecondCallerSkipsGrace(size: nat)
    requires size > 0
    ensures exists s :: ReachableWith(size, s) && |s.loops| == size && EverStopped(s.loops[0])
                        && |s.calls| == 2 && s.calls[0].Draining?
  {
    ReachFresh(size);
    hide ReachableWith, P.Next, P.Enabled;
    var s := Fresh(size);
    Reach(size, s, Invoke, s.(calls := [Signalling]));
    Reach(size, s.(calls := [Signalling]), Invoke, s.(calls := [Signalling, Signalling]));
    Reach(size, s.(calls := [Signalling, Signalling]), Signal(0), TwoCallers(size, true, TakingSlot, Signalling));
    Reach(size, TwoCallers(size, true, TakingSlot, Signalling), TakeSlot(0), TwoCallers(size, false, Draining, Signalling));
    SecondGoesOn(size);
  }

  lemma {:induction false} SecondGoesOn(size: nat)
    requires size > 0 && ReachableWith(size, TwoCallers(size, false, Draining, Signalling))
    ensures exists s :: ReachableWith(size, s) && |s.loops| == size && EverStopped(s.loops[0])
                        && |s.calls| == 2 && s.calls[0].Draining?
  {
    hide ReachableWith, P.Next, P.Enabled;
    Reach(size, TwoCallers(size, false, Draining, Signalling), Signal(1), TwoCallers(size, false, Draining, TakingSlot));
    var s := TwoCallers(size, false, Draining, Stopping(0, None));
    Reach(size, TwoCallers(size, false, Draining, TakingSlot), TakeSlot(1), s);
    Safety.ReachStart();
    StopIsEnabled(P.STARTED);
    Reach(size, s, StopLoop(1), Next(s, StopLoop(1)));
    assert EverStopped(Next(s, StopLoop(1)).loops[0]);
  }
}
