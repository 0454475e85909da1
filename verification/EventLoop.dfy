/** The event loop object (crates/dispatch/src/lib.rs): `schedule`, `stop` and
    `ResponseChannel::send` as code that updates the registry, the gauge and the
    requests in place. Run alone, each is one interleaving of the `Protocol` steps, so
    the object never leaves that protocol's reachable states. */
module EventLoops {
  import opened Wrappers
  import opened Protocol
  import opened ProtocolSafety
  import opened ProtocolRace

  class EventLoop {
    var requests: seq<Request>
    var inFlight: int
    var live: set<nat>
    var phase: Phase
    var workers: seq<Thread>
    var early: bool
    var swept: bool
    /** The tasks whose `cancel` has been queued on the loop, in order. */
    var cancels: seq<nat>

    function State(): Protocol.State
      reads this
    {
      Protocol.State(requests, inFlight, live, phase, workers, early, swept)
    }

    ghost predicate Valid()
      reads this
    {
      Reachable(State())
    }

    constructor ()
      ensures Valid() && State() == STARTED
    {
      requests, inFlight, live, phase := [], 0, {}, Running;
      workers, early, swept, cancels := [Thread(LoopThread, {}, None)], false, false, [];
      new;
      ReachStart();
    }

    /** `ResponseChannel::send` at the end of a refused `schedule`. */
    method SendRefusal(i: nat)
      requires Valid() && i < |requests| && requests[i].pc.SendTake? && requests[i].channel.Armed?
      modifies this`requests, this`inFlight
      ensures Valid() && inFlight == old(inFlight) - 1
      ensures requests == old(requests)[i := old(requests)[i].(channel := Resolved, pc := Failed,
                                                                answers := old(requests)[i].answers + [FromSchedule])]
    {
      hide Reachable;
      requests := requests[i := requests[i].(channel := Taken(Scheduler), pc := SendLower)];
      Reach(old(State()), Protocol.SendRefusal(i), State());
      ghost var taken := State();
      inFlight := inFlight - 1;
      requests := requests[i := requests[i].(channel := Lowered(Scheduler), pc := SendDeliver)];
      Reach(taken, Protocol.SendRefusal(i), State());
      ghost var lowered := State();
      requests := requests[i := requests[i].(channel := Resolved, pc := Failed, answers := requests[i].answers + [FromSchedule])];
      Reach(lowered, Protocol.SendRefusal(i), State());
    }

    /** Create a request's task and hand it to the loop; `built` and `accepted` are
        the answers of Python. A failure is resolved on the spot. */
    method Schedule(built: bool, accepted: bool) returns (i: nat, dispatched: bool)
      requires Valid() && (accepted ==> phase != Dead(true))
      modifies this`requests, this`inFlight, this`live
      ensures Valid() && i == |old(requests)| && |requests| == i + 1 && requests[..i] == old(requests)
      ensures dispatched == (built && accepted)
      ensures dispatched ==> live == old(live) + {i} && inFlight == old(inFlight) + 1
      ensures dispatched ==> requests[i].pc.Accepted? && requests[i].channel.Armed?
      ensures !dispatched ==> live == old(live) && inFlight == old(inFlight) && requests[i].pc.Failed?
      ensures !requests[i].finished
      ensures !dispatched ==> requests[i].answers == [if built then FromSchedule else SenderDropped]
    {
      hide Reachable, Inv;
      i := |requests|;
      inFlight, requests := inFlight + 1, requests + [COUNTED];
      Reach(old(State()), Count, State());
      if !built {
        DropChannel(i);
        return i, false;
      }
      ghost var counted := State();
      requests := requests[i := requests[i].(channel := Armed, pc := Built)];
      Reach(counted, Build(i), State());
      dispatched := Dispatch(i, accepted);
    }

    /** The channel goes down with a task that could not be allocated. */
    method DropChannel(i: nat)
      requires Valid() && i < |requests| && requests[i] == COUNTED
      modifies this`requests, this`inFlight
      ensures Valid() && inFlight == old(inFlight) - 1 && |requests| == |old(requests)|
      ensures requests == old(requests)[i := requests[i]] && requests[i].pc.Failed? && requests[i].answers == [SenderDropped]
      ensures !requests[i].finished
    {
      hide Reachable;
      requests := requests[i := requests[i].(pc := AllocFailed, channel := Dropping, answers := [] + [SenderDropped])];
      Reach(old(State()), AllocFail(i), State());
      ghost var dropping := State();
      inFlight := inFlight - 1;
      requests := requests[i := requests[i].(channel := Resolved, pc := Failed)];
      Reach(dropping, DropLower(i), State());
    }

    /** Register the task, queue its first step, and clean up if the loop refuses. */
    method Dispatch(i: nat, accepted: bool) returns (dispatched: bool)
      requires Valid() && i < |requests| && requests[i] == COUNTED.(channel := Armed, pc := Built)
      requires accepted ==> phase != Dead(true)
      modifies this`requests, this`inFlight, this`live
      ensures Valid() && dispatched == accepted && |requests| == |old(requests)| && requests == old(requests)[i := requests[i]]
      ensures dispatched ==> live == old(live) + {i} && inFlight == old(inFlight)
      ensures dispatched ==> requests[i].pc.Accepted? && requests[i].channel.Armed?
      ensures !dispatched ==> live == old(live) && inFlight == old(inFlight) - 1
      ensures !requests[i].finished
      ensures !dispatched ==> requests[i].pc.Failed? && requests[i].answers == [FromSchedule]
    {
      hide Reachable, Next, Enabled;
      NotListedYet(State(), i);
      ReachInserted(State(), i);
      live := live + {i};
      requests := requests[i := requests[i].(pc := Inserted)];
      ReachEnqueued(State(), i, accepted);
      requests := requests[i := requests[i].(pc := if accepted then Accepted else Refused)];
      if accepted { return true; }
      ReachTakenBack(State(), i);
      live := live - {i};
      requests := requests[i := requests[i].(pc := SendTake)];
      SendRefusal(i);
      dispatched := false;
    }

    /** Queue a cancellation for every live task, each once, but for those whose
        `call_soon_threadsafe` is refused; a closed loop refuses all. */
    method CancelInFlight(refused: set<nat>) returns (asked: seq<nat>)
      requires phase == Dead(true) ==> live <= refused
      modifies this`cancels
      ensures cancels == old(cancels) + asked
      ensures |asked| == |live - refused| && forall i :: i in asked <==> i in live && i !in refused
    {
      var left := live;
      asked := [];
      while left != {}
        invariant left <= live && |asked| + |left - refused| == |live - refused|
        invariant cancels == old(cancels) + asked
        invariant forall i :: i in live && i !in refused <==> i in asked || (i in left && i !in refused)
      {
        var i :| i in left;
        if i !in refused {
          cancels := cancels + [i];
          asked := asked + [i];
          assert left - {i} - refused == left - refused - {i};
        } else {
          assert left - {i} - refused == left - refused;
        }
        left := left - {i};
      }
    }

    // ----- Stopping

    /** `ResponseChannel::send` at the end of thread `k`'s `finish`. */
    method Send(k: nat)
      requires Valid() && Busy(State(), k) && workers[k].job.value.stage.Take?
      modifies this`requests, this`inFlight, this`workers
      ensures Valid() && workers == old(workers)[k := old(workers)[k].(job := None)]
      ensures var i := old(workers)[k].job.value.request;
              && |requests| == |old(requests)| && requests == old(requests)[i := requests[i]]
              && !requests[i].channel.Armed? && requests[i].finished == old(requests)[i].finished
    {
      hide Reachable;
      var i, job := workers[k].job.value.request, workers[k].job.value;
      if !requests[i].channel.Armed? {
        workers := workers[k := workers[k].(job := None)];
        Reach(old(State()), Advance(k), State());
        return;
      }
      requests := requests[i := requests[i].(channel := Taken(Worker(k)))];
      workers := workers[k := workers[k].(job := Some(job.(stage := Lower)))];
      Reach(old(State()), Advance(k), State());
      LowerAndDeliver(k);
    }

    method LowerAndDeliver(k: nat)
      requires Valid() && Busy(State(), k) && workers[k].job.value.stage.Lower?
      modifies this`requests, this`inFlight, this`workers
      ensures Valid() && workers == old(workers)[k := old(workers)[k].(job := None)]
      ensures var i := old(workers)[k].job.value.request;
              && |requests| == |old(requests)| && requests == old(requests)[i := requests[i]]
              && requests[i].channel.Resolved? && requests[i].finished == old(requests)[i].finished
    {
      hide Reachable;
      var i, job := workers[k].job.value.request, workers[k].job.value;
      inFlight := inFlight - 1;
      requests := requests[i := requests[i].(channel := Lowered(Worker(k)))];
      workers := workers[k := workers[k].(job := Some(job.(stage := Deliver)))];
      Reach(old(State()), Advance(k), State());
      ghost var lowered := State();
      var answer := if k == 0 then FromTurn else FromDisposal;
      requests := requests[i := requests[i].(channel := Resolved, answers := requests[i].answers + [answer])];
      workers := workers[k := workers[k].(job := None)];
      Reach(lowered, Advance(k), State());
    }

    /** The bookkeeping of `finish`: mark, leave the registries, hand on the callbacks. */
    method Finish(k: nat)
      requires Valid() && Busy(State(), k) && workers[k].job.value.stage.Mark?
      modifies this`requests, this`inFlight, this`workers, this`live
      ensures Valid() && workers == old(workers)[k := old(workers)[k].(job := None)]
      ensures var i := old(workers)[k].job.value.request;
              && |requests| == |old(requests)| && requests == old(requests)[i := requests[i]]
              && requests[i].finished && !requests[i].channel.Armed?
              && (live == old(live) || live == old(live) - {i})
    {
      hide Reachable;
      var i, job := workers[k].job.value.request, workers[k].job.value;
      var r := requests[i];
      if r.finished {
        workers := workers[k := workers[k].(job := Some(job.(stage := Take)))];
        Reach(old(State()), Advance(k), State());
        Send(k);
        return;
      }
      requests := requests[i := r.(finished := true, registered := false, pending := 0)];
      workers := workers[k := workers[k].(job := Some(Job(i, Unlist, r.registered, r.pending)))];
      Reach(old(State()), Advance(k), State());
      ghost var marked := State();
      live := live - {i};
      workers := workers[k := workers[k].(job := Some(workers[k].job.value.(stage := Unregister)))];
      Reach(marked, Advance(k), State());
      HandOver(k);
      Send(k);
    }

    /** Unregister with asyncio, then hand each done callback to `call_soon`. */
    method HandOver(k: nat)
      requires Valid() && Busy(State(), k) && workers[k].job.value.stage.Unregister?
      modifies this`requests, this`workers
      ensures Valid()
      ensures var job := old(workers)[k].job.value;
              && workers == old(workers)[k := old(workers)[k].(job := Some(job.(stage := Take, firing := 0)))]
              && var r := old(requests)[job.request];
              requests == old(requests)[job.request := r.(listed := r.listed && !job.wasRegistered, handed := r.handed + job.firing)]
    {
      hide Reachable, Next, Enabled;
      ghost var job := workers[k].job.value;
      ghost var i := job.request;
      ghost var r := requests[i].(listed := requests[i].listed && !job.wasRegistered);
      LeaveAsyncio(k);
      while workers[k].job.value.firing > 0
        invariant Valid() && Busy(State(), k)
        invariant workers == old(workers)[k := old(workers)[k].(job := workers[k].job)]
        invariant var left := workers[k].job.value.firing;
                  && left <= job.firing && workers[k].job.value == job.(stage := Fire, firing := left)
                  && requests == old(requests)[i := r.(handed := r.handed + job.firing - left)]
        decreases workers[k].job.value.firing
      {
        FireOne(k);
      }
      ReachFired(State(), k);
      workers := workers[k := workers[k].(job := Some(workers[k].job.value.(stage := Take)))];
    }

    method LeaveAsyncio(k: nat)
      requires Valid() && Busy(State(), k) && workers[k].job.value.stage.Unregister?
      modifies this`requests, this`workers
      ensures Valid()
      ensures var job := old(workers)[k].job.value;
              && workers == old(workers)[k := old(workers)[k].(job := Some(job.(stage := Fire)))]
              && var r := old(requests)[job.request];
              requests == old(requests)[job.request := r.(listed := r.listed && !job.wasRegistered)]
    {
      hide Reachable, Next, Enabled;
      ReachUnregistered(State(), k);
      var i, job := workers[k].job.value.request, workers[k].job.value;
      if job.wasRegistered { requests := requests[i := requests[i].(listed := false)]; }
      workers := workers[k := workers[k].(job := Some(job.(stage := Fire)))];
      assert requests == old(requests)[i := requests[i]];
    }

    method FireOne(k: nat)
      requires Valid() && Busy(State(), k) && workers[k].job.value.stage.Fire? && workers[k].job.value.firing > 0
      modifies this`requests, this`workers
      ensures Valid()
      ensures var job := old(workers)[k].job.value;
              && workers == old(workers)[k := old(workers)[k].(job := Some(job.(firing := job.firing - 1)))]
              && var r := old(requests)[job.request];
              requests == old(requests)[job.request := r.(handed := r.handed + 1)]
    {
      hide Reachable, Next, Enabled;
      ReachFired(State(), k);
      var i, job := workers[k].job.value.request, workers[k].job.value;
      requests := requests[i := requests[i].(handed := requests[i].handed + 1)];
      workers := workers[k := workers[k].(job := Some(job.(firing := job.firing - 1)))];
    }

    /** `dispose` of one drained task. */
    method Dispose(k: nat, i: nat)
      requires Valid() && k < |workers| && workers[k].role.Disposing? && workers[k].job.None? && i in workers[k].left
      modifies this`requests, this`inFlight, this`workers, this`live
      ensures Valid() && workers == old(workers)[k := old(workers)[k].(left := old(workers)[k].left - {i})]
      ensures i < |requests| == |old(requests)| && requests == old(requests)[i := requests[i]]
      ensures requests[i].finished && !requests[i].channel.Armed?
      ensures live <= old(live)
    {
      DrainedExists(State(), k, i);
      hide Reachable;
      workers := workers[k := workers[k].(left := workers[k].left - {i}, job := Some(Job(i, Working, false, 0)))];
      Reach(old(State()), Protocol.Dispose(k, i), State());
      ghost var working := State();
      workers := workers[k := workers[k].(job := Some(Job(i, Mark, false, 0)))];
      Reach(working, Advance(k), State());
      Finish(k);
    }

    /** Stop the loop, join its thread, and dispose of whatever is still registered. */
    method Stop(closes: bool)
      requires Valid() && |workers| > 0 && workers[0].job.None?
      requires forall k :: 1 <= k < |workers| ==> workers[k].role.Stopped?
      modifies this
      ensures Valid() && StopsReturned(State()) && live == {} && workers[0].job.None? && cancels == old(cancels)
      ensures |requests| == |old(requests)|
      ensures forall i :: i in old(live) ==> i < |requests| && requests[i].finished && !requests[i].channel.Armed?
      ensures forall i :: 0 <= i < |requests| && i !in old(live) ==> requests[i] == old(requests)[i]
    {
      hide Reachable, Next, Enabled;
      ListedExist(State());
      var k := |workers|;
      JoinLoop(closes);
      ghost var joined := State();
      ReachDrained(State(), k);
      var leftover := live;
      live := {};
      swept := swept || k == 1;
      workers := workers[k := Thread(Disposing, leftover, None)];
      while leftover != {}
        invariant Valid() && live == {} && |workers| == k + 1 && |requests| == |old(requests)| && phase.Dead?
        invariant workers == joined.workers[k := Thread(Disposing, leftover, None)]
        invariant leftover <= old(live) && cancels == old(cancels)
        invariant forall i :: i in old(live) && i !in leftover ==> requests[i].finished && !requests[i].channel.Armed?
        invariant forall i :: 0 <= i < |requests| && i !in old(live) ==> requests[i] == old(requests)[i]
        decreases leftover
      {
        var i :| i in leftover;
        Dispose(k, i);
        leftover := leftover - {i};
      }
      ReachReturned(State(), k);
      workers := workers[k := workers[k].(role := Stopped)];
    }

    /** The first part of `stop`: the call that wins the join handle ends the loop and
        waits for its thread; a later one finds that done. */
    method JoinLoop(closes: bool)
      requires Valid() && |workers| > 0 && workers[0].job.None?
      requires forall k :: 1 <= k < |workers| ==> workers[k].role.Stopped?
      modifies this`phase, this`workers
      ensures Valid() && phase.Dead? && workers == old(workers) + [Thread(Draining, {}, None)]
    {
      hide Reachable, Next, Enabled;
      StoppedIsDead(State());
      ReachCalled(State());
      var k := |workers|;
      workers := workers + [Thread(if k == 1 then Joining else Draining, {}, None)];
      if k > 1 { return; }
      if phase.Running? {
        ReachEnded(State());
        phase := Ended;
      }
      if phase.Ended? {
        ReachClosed(State(), closes);
        phase := Dead(closes);
      }
      ReachJoined(State(), k);
      workers := workers[k := workers[k].(role := Draining)];
    }
  }

  // ----- Steps of the protocol, one field update each

  lemma {:induction false} ReachInserted(s: Protocol.State, i: nat)
    requires Reachable(s) && i < |s.requests| && s.requests[i].pc.Built?
    ensures Reachable(s.(requests := s.requests[i := s.requests[i].(pc := Inserted)], live := s.live + {i}))
  {
    hide Reachable;
    Reach(s, Insert(i), Next(s, Insert(i)));
  }

  lemma {:induction false} ReachEnqueued(s: Protocol.State, i: nat, ok: bool)
    requires Reachable(s) && i < |s.requests| && s.requests[i].pc.Inserted? && (ok ==> s.phase != Dead(true))
    ensures Reachable(s.(requests := s.requests[i := s.requests[i].(pc := if ok then Accepted else Refused)]))
  {
    hide Reachable;
    Reach(s, Enqueue(i, ok), Next(s, Enqueue(i, ok)));
  }

  lemma {:induction false} ReachTakenBack(s: Protocol.State, i: nat)
    requires Reachable(s) && i < |s.requests| && s.requests[i].pc.Refused?
    ensures Reachable(s.(requests := s.requests[i := s.requests[i].(pc := SendTake)], live := s.live - {i}))
  {
    hide Reachable;
    Reach(s, TakeBack(i), Next(s, TakeBack(i)));
  }

  lemma {:induction false} ReachUnregistered(s: Protocol.State, k: nat)
    requires Reachable(s) && Busy(s, k) && s.workers[k].job.value.stage.Unregister?
    ensures var job := s.workers[k].job.value;
            var r := s.requests[job.request];
            Reachable(s.(requests := s.requests[job.request := r.(listed := r.listed && !job.wasRegistered)],
                         workers := s.workers[k := s.workers[k].(job := Some(job.(stage := Fire)))]))
  {
    hide Reachable;
    Reach(s, Advance(k), Advanced(s, k));
  }

  lemma {:induction false} ReachFired(s: Protocol.State, k: nat)
    requires Reachable(s) && Busy(s, k) && s.workers[k].job.value.stage.Fire?
    ensures var job := s.workers[k].job.value;
            var r := s.requests[job.request];
            if job.firing == 0
            then Reachable(s.(workers := s.workers[k := s.workers[k].(job := Some(job.(stage := Take)))]))
            else Reachable(s.(requests := s.requests[job.request := r.(handed := r.handed + 1)],
                              workers := s.workers[k := s.workers[k].(job := Some(job.(firing := job.firing - 1)))]))
  {
    hide Reachable;
    Reach(s, Advance(k), Advanced(s, k));
    var i := s.workers[k].job.value.request;
    assert s.requests[i := s.requests[i]] == s.requests;
  }

  lemma {:induction false} ReachCalled(s: Protocol.State)
    requires Reachable(s)
    ensures Reachable(s.(workers := s.workers + [Thread(if |s.workers| == 1 then Joining else Draining, {}, None)]))
  {
    hide Reachable;
    Reach(s, CallStop, Next(s, CallStop));
  }

  lemma {:induction false} ReachEnded(s: Protocol.State)
    requires Reachable(s) && s.phase.Running? && |s.workers| > 0 && s.workers[0].job.None?
    ensures Reachable(s.(phase := Ended))
  {
    hide Reachable;
    Reach(s, EndLoop, Next(s, EndLoop));
  }

  lemma {:induction false} ReachClosed(s: Protocol.State, ok: bool)
    requires Reachable(s) && s.phase.Ended?
    ensures Reachable(s.(phase := Dead(ok)))
  {
    hide Reachable;
    Reach(s, Close(ok), Next(s, Close(ok)));
  }

  lemma {:induction false} ReachJoined(s: Protocol.State, k: nat)
    requires Reachable(s) && k < |s.workers| && s.workers[k].role.Joining? && s.phase.Dead?
    ensures Reachable(s.(workers := s.workers[k := s.workers[k].(role := Draining)]))
  {
    hide Reachable;
    Reach(s, Join(k), Next(s, Join(k)));
  }

  lemma {:induction false} ReachDrained(s: Protocol.State, k: nat)
    requires Reachable(s) && k < |s.workers| && s.workers[k] == Thread(Draining, {}, None) && s.phase.Dead?
    ensures Reachable(s.(workers := s.workers[k := Thread(Disposing, s.live, None)], live := {}, swept := s.swept || k == 1))
  {
    hide Reachable;
    Reach(s, Drain(k), Next(s, Drain(k)));
  }

  lemma {:induction false} ReachReturned(s: Protocol.State, k: nat)
    requires Reachable(s) && k < |s.workers| && s.workers[k] == Thread(Disposing, {}, None)
    ensures Reachable(s.(workers := s.workers[k := s.workers[k].(role := Stopped)]))
  {
    hide Reachable;
    Reach(s, ReturnStop(k), Next(s, ReturnStop(k)));
  }

  /** A task just built is in no registry. */
  lemma {:induction false} NotListedYet(s: Protocol.State, i: nat)
    requires Reachable(s) && i < |s.requests| && s.requests[i].pc.Built?
    ensures i !in s.live
  {
    ReachableInv(s);
    hide Reachable;
    assert i in s.live ==> LiveOk(s, i);
  }

  lemma {:induction false} DrainedExists(s: Protocol.State, k: nat, i: nat)
    requires Reachable(s) && k < |s.workers| && i in s.workers[k].left
    ensures i < |s.requests|
  {
    ReachableInv(s);
    hide Reachable;
    assert ThreadOk(s, k) && Drainable(s, i);
  }

  lemma {:induction false} ListedExist(s: Protocol.State)
    requires Reachable(s)
    ensures forall i :: i in s.live ==> i < |s.requests|
  {
    ReachableInv(s);
    hide Reachable;
    assert forall i :: i in s.live ==> LiveOk(s, i);
  }

  lemma {:induction false} StoppedIsDead(s: Protocol.State)
    requires Reachable(s) && (|s.workers| > 1 ==> s.workers[1].role.Stopped?)
    ensures |s.workers| > 1 ==> s.phase.Dead?
  {
    ReachableInv(s);
    hide Reachable;
    if |s.workers| > 1 { assert ThreadOk(s, 1); }
  }
}
