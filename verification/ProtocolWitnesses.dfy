/** Runs that show where the documented claims stop: a loop that cannot be closed
    strands a later request, a refused request stays unfinished, and two overlapping
    `stop` calls release a response before the task is done. */
module ProtocolWitnesses {
  import opened Wrappers
  import opened Protocol
  import opened ProtocolSafety
  import opened ProtocolRace
  import opened ProtocolRelease
  import opened ProtocolSharing

  const LONE: Request := COUNTED.(pc := Accepted, channel := Armed)

  /** A loop whose only request has been accepted. */
  function OneRequest(phase: Phase, workers: seq<Thread>, swept: bool): State {
    State([LONE], 1, {0}, phase, workers, false, swept)
  }

  /** A `schedule` call that the loop accepts. */
  lemma {:induction false} ReachAccepted(phase: Phase, workers: seq<Thread>, swept: bool)
    requires Reachable(State([], 0, {}, phase, workers, false, swept)) && phase != Dead(true)
    ensures Reachable(OneRequest(phase, workers, swept))
  {
    hide Reachable;
    var s := State([], 0, {}, phase, workers, false, swept);
    var counted := s.(requests := [COUNTED], gauge := 1);
    Reach(s, Count, counted);
    var built := counted.(requests := [COUNTED.(pc := Built, channel := Armed)]);
    Reach(counted, Build(0), built);
    var inserted := built.(requests := [COUNTED.(pc := Inserted, channel := Armed)], live := {0});
    Reach(built, Insert(0), inserted);
    Reach(inserted, Enqueue(0, true), OneRequest(phase, workers, swept));
  }

  const LOOP: Thread := Thread(LoopThread, {}, None)

  /** A `stop` call on a loop that never had a request. */
  function Stopping(phase: Phase, role: Role, swept: bool): State {
    State([], 0, {}, phase, [LOOP, Thread(role, {}, None)], false, swept)
  }

  lemma {:induction false} ReachDead(closes: bool)
    ensures Reachable(Stopping(Dead(closes), Joining, false))
  {
    ReachStart();
    hide Reachable;
    Reach(STARTED, CallStop, Stopping(Running, Joining, false));
    Reach(Stopping(Running, Joining, false), EndLoop, Stopping(Ended, Joining, false));
    Reach(Stopping(Ended, Joining, false), Close(closes), Stopping(Dead(closes), Joining, false));
  }

  lemma {:induction false} ReachStopped(closes: bool)
    ensures Reachable(Stopping(Dead(closes), Stopped, true))
  {
    ReachDead(closes);
    hide Reachable;
    assert Next(Stopping(Dead(closes), Joining, false), Join(1)).workers == [LOOP, Thread(Draining, {}, None)];
    Reach(Stopping(Dead(closes), Joining, false), Join(1), Stopping(Dead(closes), Draining, false));
    ReachReturned(closes);
  }

  lemma {:induction false} ReachReturned(closes: bool)
    requires Reachable(Stopping(Dead(closes), Draining, false))
    ensures Reachable(Stopping(Dead(closes), Stopped, true))
  {
    hide Reachable;
    Reach(Stopping(Dead(closes), Draining, false), Drain(1), Stopping(Dead(closes), Disposing, true));
    Reach(Stopping(Dead(closes), Disposing, true), ReturnStop(1), Stopping(Dead(closes), Stopped, true));
  }

  /** If closing the loop fails, `call_soon_threadsafe` still succeeds, and a request
      accepted after `stop` has drained and returned is never answered. */
  lemma {:induction false} CloseFailureStrands()
    ensures exists s :: Reachable(s) && Over(s) && |s.requests| == 1 && s.requests[0].pc.Accepted?
                        && s.requests[0].answers == [] && s.gauge == 1
  {
    ReachStopped(false);
    var workers := [LOOP, Thread(Stopped, {}, None)];
    ReachAccepted(Dead(false), workers, true);
    hide Reachable;
    assert Over(OneRequest(Dead(false), workers, true));
  }

  /** A closed loop with one request that came too late, and how far that request is. */
  function Late(r: Request, gauge: int, live: set<nat>): State {
    State([r], gauge, live, Dead(true), [LOOP, Thread(Stopped, {}, None)], false, true)
  }

  const BUILT: Request := COUNTED.(pc := Built, channel := Armed)

  lemma {:induction false} ReachBuilt()
    ensures Reachable(Late(BUILT, 1, {}))
  {
    ReachStopped(true);
    hide Reachable;
    Reach(Stopping(Dead(true), Stopped, true), Count, Late(COUNTED, 1, {}));
    Reach(Late(COUNTED, 1, {}), Build(0), Late(BUILT, 1, {}));
  }

  lemma {:induction false} ReachRefused()
    ensures Reachable(Late(BUILT.(pc := SendTake), 1, {}))
  {
    ReachBuilt();
    hide Reachable;
    assert {} + {0} == {0} && {0} - {0} == {};
    Reach(Late(BUILT, 1, {}), Insert(0), Late(BUILT.(pc := Inserted), 1, {0}));
    Reach(Late(BUILT.(pc := Inserted), 1, {0}), Enqueue(0, false), Late(BUILT.(pc := Refused), 1, {0}));
    Reach(Late(BUILT.(pc := Refused), 1, {0}), TakeBack(0), Late(BUILT.(pc := SendTake), 1, {}));
  }

  /** A request refused by a closed loop is answered, and never finished. */
  lemma {:induction false} RefusedStaysUnfinished()
    ensures exists s :: Reachable(s) && Over(s) && s.phase == Dead(true) && |s.requests| == 1
                        && s.requests[0].answers == [FromSchedule] && !s.requests[0].finished
  {
    ReachRefused();
    hide Reachable;
    var taken := BUILT.(pc := SendLower, channel := Taken(Scheduler));
    Reach(Late(BUILT.(pc := SendTake), 1, {}), SendRefusal(0), Late(taken, 1, {}));
    var lowered := BUILT.(pc := SendDeliver, channel := Lowered(Scheduler));
    Reach(Late(taken, 1, {}), SendRefusal(0), Late(lowered, 0, {}));
    var answered := BUILT.(pc := Failed, channel := Resolved, answers := [FromSchedule]);
    assert lowered.answers + [FromSchedule] == [FromSchedule];
    Reach(Late(lowered, 0, {}), SendRefusal(0), Late(answered, 0, {}));
    assert Over(Late(answered, 0, {}));
  }

  // ----- Overlapping stops

  const WATCHED: Request := LONE.(added := 1, pending := 1)

  /** The loop thread has the task, one `stop` waits to join, and a second one, which
      found the join handle gone, has drained the task. */
  function Overlap(r: Request, gauge: int, onLoop: Option<Job>, onStop: Option<Job>): State {
    State([r], gauge, {}, Running,
          [Thread(LoopThread, {}, onLoop), Thread(Joining, {}, None), Thread(Disposing, {}, onStop)], true, false)
  }

  const TURNING: Thread := Thread(LoopThread, {}, Some(Job(0, Working, false, 0)))

  function Watched(live: set<nat>, workers: seq<Thread>, early: bool): State {
    State([WATCHED], 1, live, Running, workers, early, false)
  }

  lemma {:induction false} ReachTurning()
    ensures Reachable(Watched({0}, [TURNING], false))
  {
    ReachStart();
    ReachAccepted(Running, [LOOP], false);
    hide Reachable;
    Reach(OneRequest(Running, [LOOP], false), AddCallback(0), Watched({0}, [LOOP], false));
    Reach(Watched({0}, [LOOP], false), BeginTurn(0), Watched({0}, [TURNING], false));
  }

  lemma {:induction false} ReachOverlap()
    ensures Reachable(Overlap(WATCHED, 1, TURNING.job, TURNING.job))
  {
    ReachTurning();
    hide Reachable;
    var first, second := Thread(Joining, {}, None), Thread(Draining, {}, None);
    Reach(Watched({0}, [TURNING], false), CallStop, Watched({0}, [TURNING, first], false));
    Reach(Watched({0}, [TURNING, first], false), CallStop, Watched({0}, [TURNING, first, second], false));
    var drained := Thread(Disposing, {0}, None);
    Reach(Watched({0}, [TURNING, first, second], false), Drain(2), Watched({}, [TURNING, first, drained], true));
    assert {0} - {0} == {};
    Reach(Watched({}, [TURNING, first, drained], true), Dispose(2, 0), Overlap(WATCHED, 1, TURNING.job, TURNING.job));
  }

  /** Two overlapping `stop` calls bring about sharing, and with it an early release: the
      second finds the join handle gone, and drains a task the loop thread works on. */
  lemma {:induction false} OverlapReleasesEarly()
    ensures exists s :: Reachable(s) && Early(s, 0)
  {
    ReachOverlap();
    hide Reachable, Leads;
    var s := Overlap(WATCHED, 1, TURNING.job, TURNING.job);
    FromStart(s);
    assert Shared(s, 0) by { assert Has(s.workers[0], 0) && Has(s.workers[2], 0); }
    var none: seq<Step> := [];
    var t := SharingReleasesEarly([STARTED], none, s, 0);
    LeadsReachable([STARTED], none, t);
  }
}
