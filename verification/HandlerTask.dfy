/** The task object itself (crates/dispatch/src/lib.rs): fields updated in place, loops
    where the source loops. Every method is proved to do what `TaskMachine` says, and
    whatever is called on the object, in any order, its state and its log remain those of
    a run of that machine (`Valid`), so what is proved of runs holds of the object. */
module HandlerTasks {
  import opened Wrappers
  import opened JsonWriter
  import opened Responses
  import opened TaskMachine
  import opened TaskProperties
  import opened TaskHistory

  datatype ParkOutcome = Parked | BadYielded(error: Exc) | ParkFailed

  lemma {:induction false} FiresSnoc(callbacks: seq<Callback>, i: nat)
    requires i < |callbacks|
    ensures Fires(callbacks[..i + 1]) == Fires(callbacks[..i]) + [Fire(callbacks[i])]
  {
    if i == 0 {
      assert callbacks[..1][1..] == [];
    } else {
      FiresSnoc(callbacks[1..], i - 1);
      assert callbacks[..i + 1][1..] == callbacks[1..][..i] && callbacks[..i][1..] == callbacks[1..][..i - 1];
    }
  }

  lemma {:induction false} DropsSnoc(callbacks: seq<Callback>, c: Callback)
    ensures Drops(callbacks + [c]) == Drops(callbacks) + [Drop(c)]
  {
    if callbacks == [] {
      assert [] + [c] == [c] && [c][1..] == [];
    } else {
      assert (callbacks + [c])[1..] == callbacks[1..] + [c];
      DropsSnoc(callbacks[1..], c);
    }
  }

  lemma {:induction false} NoneYet(callbacks: seq<Callback>, equal: set<Ref>)
    ensures Fires(callbacks[..0]) == [] && Without(callbacks[..0], equal) == [] && Drops(Gone(callbacks[..0], equal)) == []
  {
  }

  lemma {:induction false} RetainSnoc(callbacks: seq<Callback>, equal: set<Ref>, i: nat)
    requires i < |callbacks|
    ensures var kept, gone := Without(callbacks[..i], equal), Gone(callbacks[..i], equal);
            if callbacks[i].callable in equal
            then Without(callbacks[..i + 1], equal) == kept && Gone(callbacks[..i + 1], equal) == gone + [callbacks[i]]
            else Without(callbacks[..i + 1], equal) == kept + [callbacks[i]] && Gone(callbacks[..i + 1], equal) == gone
  {
    if i == 0 {
      assert callbacks[..1][1..] == [];
    } else {
      RetainSnoc(callbacks[1..], equal, i - 1);
      assert callbacks[..i + 1][1..] == callbacks[1..][..i] && callbacks[..i][1..] == callbacks[1..][..i - 1];
    }
  }

  /** The rest of a turn, from the point where there is a coroutine to step. */
  function Resumed(s: TaskState, e: TurnEnv, pending: Option<Exc>): Outcome {
    var p := Enter(s, e, pending);
    if !p.Advance? then Conclude(p, e.closeOps)
    else
      var advance := if pending.Some? then Throw(pending.value) else Send;
      var ran := RunOps(s, e.stepOps);
      var settled := if Settle(ran.state, e).Advance? then ran else Conclude(Settle(ran.state, e), e.closeOps);
      Outcome(settled.state, p.effects + [advance] + ran.effects + settled.effects + [ExitContext, LeaveTask])
  }

  lemma {:induction false} TurnResumes(s: TaskState, e: TurnEnv)
    requires !s.finished && s.coroutine.Some?
    ensures Turn(s, e) == Resumed(Claimed(s), e, PendingThrow(s.deferredThrow, e.wake, s.mustCancel, s.cancelMessage))
  {
    hide Abandon, RunOps, Settle, PendingThrow;
    SettleQuiet(RunOps(Claimed(s), e.stepOps).state, e);
  }

  lemma {:induction false} RecordedKeeps(s: TaskState, completion: Completion)
    ensures var t := Recorded(s, completion); t.registered == s.registered && t.doneCallbacks == s.doneCallbacks
  {
  }

  predicate CanStart(e: TurnEnv) {
    e.factory.Built? && e.contextCopied
  }

  /** What `start` does: it leaves a coroutine to step, or finishes the task. */
  function Started(s: TaskState, e: TurnEnv): Outcome {
    if CanStart(e) then
      Outcome(s.(coroutine := Some(e.factory.coroutine), context := Some(e.factory.context),
                 registered := s.registered || e.registerOk),
              [CallHandler, CopyContext(true), RegisterTask(e.registerOk)])
    else if e.factory.FactoryRaised? then
      Prefix([CallHandler], Finish(s, InternalError(), Raised(e.factory.error)))
    else
      Prefix([CallHandler, CopyContext(false), DiscardCoroutine], Finish(s, InternalError(), Aborted))
  }

  lemma {:induction false} BeginStarts(s: TaskState, e: TurnEnv)
    requires !s.finished && s.coroutine.None? && !s.mustCancel && CanStart(e)
    ensures var start := Started(Claimed(s), e);
            Begin(s, e) == After(start.effects, Enter(start.state, e,
                             PendingThrow(s.deferredThrow, e.wake, s.mustCancel, s.cancelMessage)))
  {
    hide Enter, PendingThrow;
  }

  lemma {:induction false} EnterPends(s: TaskState, e: TurnEnv, pending: Option<Exc>)
    ensures var p := Enter(s, e, pending); p.Advance? ==> p.state == s && p.pending == pending
  {
  }

  lemma {:induction false} TurnStarts(s: TaskState, e: TurnEnv)
    requires !s.finished && s.coroutine.None? && !s.mustCancel && CanStart(e)
    ensures var start := Started(Claimed(s), e);
            Turn(s, e) == Prefix(start.effects, Resumed(start.state, e,
                                   PendingThrow(s.deferredThrow, e.wake, s.mustCancel, s.cancelMessage)))
  {
    hide Abandon, RunOps, Settle, PendingThrow, Conclude, Begin, Enter, Started, Claimed, CanStart;
    BeginStarts(s, e);
    var start := Started(Claimed(s), e);
    var ran := RunOps(start.state, e.stepOps);
    SettleQuiet(ran.state, e);
    var pending := PendingThrow(s.deferredThrow, e.wake, s.mustCancel, s.cancelMessage);
    var p := Enter(start.state, e, pending);
    EnterPends(start.state, e, pending);
    if p.Advance? {
      var settled := Conclude(Settle(ran.state, e), e.closeOps);
      var advance := if pending.Some? then Throw(pending.value) else Send;
      assert start.effects + p.effects + [advance] + ran.effects + settled.effects + [ExitContext, LeaveTask]
          == start.effects + (p.effects + [advance] + ran.effects + settled.effects + [ExitContext, LeaveTask]);
    } else {
      ConcludeAfter(start.effects, p, e.closeOps);
    }
  }

  lemma {:induction false} ConcludeAfter(effects: seq<Effect>, p: Phase, ops: seq<Op>)
    requires !p.Advance?
    ensures Conclude(After(effects, p), ops) == Prefix(effects, Conclude(p, ops))
  {
    hide Abandon;
    assert effects + p.effects + Abandon(p.state, ops).effects == effects + (p.effects + Abandon(p.state, ops).effects);
  }

  lemma {:induction false} TurnOfFinished(s: TaskState, e: TurnEnv)
    ensures s.finished ==> Turn(s, e) == Outcome(s, [])
  {
    hide Start;
  }

  lemma {:induction false} TurnEnds(s: TaskState, e: TurnEnv)
    requires !s.finished && s.coroutine.None? && (s.mustCancel || !CanStart(e))
    ensures Turn(s, e) == if s.mustCancel then Finish(Claimed(s), InternalError(), Cancelled(s.cancelMessage))
                          else Started(Claimed(s), e)
  {
    hide Finish, InternalError, PendingThrow;
  }

  class HandlerTask {
    /** What the source keeps behind a mutex. */
    var state: TaskState
    /** The calls made into Python and to the response channel, in order. */
    var calls: seq<Effect>

    /** The object now shows outcome `o`, reached from where `before` was its log. */
    predicate Shows(before: seq<Effect>, o: Outcome)
      reads this
    {
      state == o.state && calls == before + o.effects
    }

    /** State and log are those of a run of the machine. */
    ghost predicate Valid()
      reads this
    {
      Lived(state, calls)
    }

    constructor ()
      ensures Valid() && state == FRESH && calls == []
    {
      state, calls := FRESH, [];
      new;
      FreshLived();
    }

    method Record(completion: Completion)
      modifies this`state
      ensures state == Recorded(old(state), completion)
    {
      match completion {
        case Returned(value) => state := state.(storedResult := Some(value));
        case Raised(error) => state := state.(storedException := Some(error));
        case Cancelled(message) => state := state.(finishedCancelled := true, cancelledMessage := message);
        case Aborted =>
      }
    }

    method Finish(response: HandlerResponse, completion: Completion)
      modifies this
      ensures Shows(old(calls), TaskMachine.Finish(old(state), response, completion))
    {
      hide Fires, Recorded;
      if state.finished {
        calls := calls + [Respond(response)];
        return;
      }
      state := state.(finished := true, waitingOn := None, deferredThrow := None);
      RecordedKeeps(state, completion);
      Record(completion);
      var wasRegistered, callbacks := state.registered, state.doneCallbacks;
      state := state.(registered := false, doneCallbacks := []);
      ghost var head := [Ended(completion), RemoveLive] + if wasRegistered then [UnregisterTask] else [];
      calls := calls + [Ended(completion)];
      calls := calls + [RemoveLive];
      if wasRegistered { calls := calls + [UnregisterTask]; }
      assert calls == old(calls) + head;
      HandOver(callbacks);
      calls := calls + [Respond(response)];
    }

    /** Hand the callbacks to `call_soon`, in order; failures are only logged. */
    method HandOver(callbacks: seq<Callback>)
      modifies this`calls
      ensures calls == old(calls) + Fires(callbacks)
    {
      hide Fires;
      var i := 0;
      NoneYet(callbacks, {});
      while i < |callbacks|
        invariant 0 <= i <= |callbacks| && calls == old(calls) + Fires(callbacks[..i])
      {
        FiresSnoc(callbacks, i);
        calls := calls + [Fire(callbacks[i])];
        i := i + 1;
      }
      assert callbacks[..|callbacks|] == callbacks;
    }

    // ----- The task protocol

    method Cancel(message: Option<Ref>, reply: CancelReply) returns (accepted: bool)
      modifies this
      ensures Shows(old(calls), OpOutcome(old(state), TaskMachine.Cancel(message, reply)))
      ensures accepted == !old(state).finished
      ensures old(Valid()) ==> Valid()
    {
      hide Lived, Turn, TaskMachine.Abandon;
      if Valid() { LivesOn(state, calls, OpEvent(TaskMachine.Cancel(message, reply))); }
      if state.finished { return false; }
      state := state.(cancelRequests := (state.cancelRequests + 1) % U32, cancelMessage := message);
      calls := calls + [CancelAsked];
      if state.waitingOn.Some? {
        calls := calls + [CancelFuture(state.waitingOn.value, reply)];
        if reply.Absorbed? { return true; }
      }
      state := state.(mustCancel := true);
      accepted := true;
    }

    method Uncancel() returns (left: nat)
      modifies this
      ensures Shows(old(calls), OpOutcome(old(state), TaskMachine.Uncancel))
      ensures left == state.cancelRequests
      ensures old(Valid()) ==> Valid()
    {
      hide Lived, Turn, TaskMachine.Abandon;
      if Valid() { LivesOn(state, calls, OpEvent(TaskMachine.Uncancel)); }
      left := if state.cancelRequests > 0 then state.cancelRequests - 1 else 0;
      state := state.(cancelRequests := left);
      if left == 0 { state := state.(mustCancel := false); }
      calls := calls + [UncancelAsked];
    }

    /** `queued` is the answer of the `call_soon` made at once on a finished task; its
        failure, and that of copying the context, is reported to the caller. */
    method AddDoneCallback(callback: Callback, contextCopied: bool, queued: bool) returns (ok: bool)
      modifies this
      ensures Shows(old(calls), OpOutcome(old(state), AddCallback(callback, contextCopied)))
      ensures ok == (contextCopied && (old(state).finished ==> queued))
      ensures old(Valid()) ==> Valid()
    {
      hide Lived, Turn, TaskMachine.Abandon;
      if Valid() { LivesOn(state, calls, OpEvent(AddCallback(callback, contextCopied))); }
      if !contextCopied { return false; }
      calls := calls + [Accept(callback)];
      if state.finished {
        calls := calls + [Fire(callback)];
        return queued;
      }
      state := state.(doneCallbacks := state.doneCallbacks + [callback]);
      ok := true;
    }

    method RemoveDoneCallback(equal: set<Ref>) returns (removed: nat)
      modifies this
      ensures Shows(old(calls), OpOutcome(old(state), RemoveCallback(equal)))
      ensures removed == |old(state).doneCallbacks| - |state.doneCallbacks|
      ensures old(Valid()) ==> Valid()
    {
      hide Lived, Turn, TaskMachine.Abandon;
      if Valid() { LivesOn(state, calls, OpEvent(RemoveCallback(equal))); }
      hide Without, Gone, Drops;
      var before, kept, i := state.doneCallbacks, [], 0;
      NoneYet(before, equal);
      while i < |before|
        invariant 0 <= i <= |before| && |kept| <= i
        invariant state == old(state) && kept == Without(before[..i], equal)
        invariant calls == old(calls) + Drops(Gone(before[..i], equal))
      {
        RetainSnoc(before, equal, i);
        if before[i].callable in equal {
          DropsSnoc(Gone(before[..i], equal), before[i]);
          calls := calls + [Drop(before[i])];
        } else {
          kept := kept + [before[i]];
        }
        i := i + 1;
      }
      assert before[..|before|] == before;
      state := state.(doneCallbacks := kept);
      removed := |before| - |kept|;
    }

    /** What Python code does to this task while it runs. */
    method Serve(ops: seq<Op>)
      modifies this
      ensures Shows(old(calls), RunOps(old(state), ops))
      decreases |ops|
    {
      hide OpOutcome, Lived;
      if ops == [] { return; }
      match ops[0] {
        case Cancel(message, reply) => var _ := Cancel(message, reply);
        case Uncancel => var _ := Uncancel();
        case AddCallback(callback, contextCopied) => var _ := AddDoneCallback(callback, contextCopied, true);
        case RemoveCallback(equal) => var _ := RemoveDoneCallback(equal);
      }
      Serve(ops[1..]);
    }

    /** `result()`: the completion in the log, if there is one yet. */
    method Result() returns (r: Reading<PyValue>)
      requires Valid()
      ensures |Endings(calls)| <= 1 && (r.Running? <==> Endings(calls) == [])
      ensures r == ResultAfter(Endings(calls))
    {
      LivedTells(state, calls);
      hide Lived, Endings;
      if !state.finished { return Running; }
      if state.finishedCancelled { return WasCancelled(state.cancelledMessage); }
      if state.storedException.Some? { return Failed(state.storedException.value); }
      r := Gave(if state.storedResult.Some? then state.storedResult.value else PyNone);
    }

    /** `exception()`: likewise. */
    method Exception() returns (r: Reading<Option<Exc>>)
      requires Valid()
      ensures |Endings(calls)| <= 1 && (r.Running? <==> Endings(calls) == [])
      ensures r == ExceptionAfter(Endings(calls))
    {
      LivedTells(state, calls);
      hide Lived, Endings;
      if !state.finished { return Running; }
      if state.finishedCancelled { return WasCancelled(state.cancelledMessage); }
      r := Gave(state.storedException);
    }

    // ----- Ending early

    method CloseCoroutineQuietly(ops: seq<Op>)
      modifies this
      ensures Shows(old(calls), if old(state).coroutine.None? then Outcome(old(state), [])
                                else Prefix([CloseCoroutine], RunOps(old(state), ops)))
    {
      hide RunOps;
      if state.coroutine.Some? {
        calls := calls + [CloseCoroutine];
        Serve(ops);
      }
    }

    /** `dispose`: the loop is gone. */
    method Dispose(ops: seq<Op>)
      modifies this
      ensures Shows(old(calls), TaskMachine.Abandon(old(state), ops))
      ensures old(Valid()) ==> Valid()
    {
      hide Lived, TaskMachine.Abandon, Turn, OpOutcome;
      if Valid() { LivesOn(state, calls, DisposeEvent(ops)); }
      Abandon(ops);
    }

    /** Close the coroutine and finish with nothing to show: how `dispose` works, and how
        every failed turn ends. */
    method Abandon(ops: seq<Op>)
      modifies this
      ensures Shows(old(calls), TaskMachine.Abandon(old(state), ops))
    {
      hide RunOps, TaskMachine.Finish, InternalError;
      CloseCoroutineQuietly(ops);
      Finish(InternalError(), Aborted);
    }

    // ----- One turn

    method Start(e: TurnEnv) returns (started: bool)
      modifies this
      ensures started == CanStart(e) && Shows(old(calls), Started(old(state), e))
    {
      hide TaskMachine.Finish, InternalError;
      calls := calls + [CallHandler];
      if e.factory.FactoryRaised? {
        Finish(InternalError(), Raised(e.factory.error));
        return false;
      }
      calls := calls + [CopyContext(e.contextCopied)];
      if !e.contextCopied {
        calls := calls + [DiscardCoroutine];
        Finish(InternalError(), Aborted);
        return false;
      }
      state := state.(coroutine := Some(e.factory.coroutine), context := Some(e.factory.context));
      calls := calls + [RegisterTask(e.registerOk)];
      if e.registerOk { state := state.(registered := true); }
      started := true;
    }

    method ParkOnFuture(future: Ref, park: ParkReplies) returns (outcome: ParkOutcome)
      modifies this
      ensures !park.hasFlag <==> outcome == BadYielded(ProtocolError(NotAFuture))
      ensures park.hasFlag && !park.blocking <==> outcome == BadYielded(ProtocolError(YieldedWithoutAwait))
      ensures park.hasFlag && park.blocking && park.foreignLoop <==> outcome == BadYielded(ProtocolError(ForeignLoop))
      ensures park.hasFlag && park.blocking && !park.foreignLoop && park.flagCleared && park.callbackAdded <==> outcome.Parked?
      ensures park.hasFlag && park.blocking && !park.foreignLoop && !(park.flagCleared && park.callbackAdded) <==> outcome.ParkFailed?
      ensures outcome.BadYielded? ==> Shows(old(calls), Outcome(old(state), []))
      ensures outcome.Parked? ==>
                Shows(old(calls), Outcome(old(state).(waitingOn := Some(future)),
                                          [ClearBlocking(future), TaskMachine.AddDoneCallback(future, true)]))
      ensures outcome.ParkFailed? ==>
                Shows(old(calls), if !park.flagCleared then Outcome(old(state), [ClearBlocking(future)])
                                  else Outcome(old(state).(waitingOn := None),
                                               [ClearBlocking(future), TaskMachine.AddDoneCallback(future, false)]))
    {
      if !park.hasFlag { return BadYielded(ProtocolError(NotAFuture)); }
      if !park.blocking { return BadYielded(ProtocolError(YieldedWithoutAwait)); }
      if park.foreignLoop { return BadYielded(ProtocolError(ForeignLoop)); }
      calls := calls + [ClearBlocking(future)];
      if !park.flagCleared { return ParkFailed; }
      state := state.(waitingOn := Some(future));
      calls := calls + [TaskMachine.AddDoneCallback(future, park.callbackAdded)];
      if !park.callbackAdded {
        state := state.(waitingOn := None);
        return ParkFailed;
      }
      outcome := Parked;
    }

    method RescheduleOrAbort(e: TurnEnv)
      modifies this
      ensures Shows(old(calls), Conclude(Reschedule(old(state), e), e.closeOps))
    {
      hide TaskMachine.Abandon;
      calls := calls + [CallSoonSelf(e.rescheduled)];
      if !e.rescheduled { Abandon(e.closeOps); }
    }

    method ApplyCancelRequestedMidStep(reply: CancelReply)
      modifies this
      ensures Shows(old(calls),
                    if !old(state).mustCancel || old(state).waitingOn.None? then Outcome(old(state), [])
                    else Outcome(if reply.Absorbed? then old(state).(mustCancel := false) else old(state),
                                 [CancelFuture(old(state).waitingOn.value, reply)]))
    {
      if !state.mustCancel || state.waitingOn.None? { return; }
      calls := calls + [CancelFuture(state.waitingOn.value, reply)];
      if reply.Absorbed? { state := state.(mustCancel := false); }
    }

    /** Dispose of what the coroutine yielded. */
    method HandleYield(e: TurnEnv, future: Ref, park: ParkReplies)
      modifies this
      ensures Shows(old(calls), Conclude(Park(old(state), e, future, park), e.closeOps))
    {
      hide TaskMachine.Abandon;
      var outcome := ParkOnFuture(future, park);
      match outcome {
        case Parked => ApplyCancelRequestedMidStep(park.cancel);
        case BadYielded(error) =>
          state := state.(deferredThrow := Some(error));
          RescheduleOrAbort(e);
        case ParkFailed => Abandon(e.closeOps);
      }
    }

    method StepOnce(e: TurnEnv, pending: Option<Exc>)
      modifies this
      ensures var advance := if pending.Some? then Throw(pending.value) else Send;
              var ran := RunOps(old(state), e.stepOps);
              !Settle(ran.state, e).Advance?
              && Shows(old(calls), Prefix([advance] + ran.effects, Conclude(Settle(ran.state, e), e.closeOps)))
    {
      hide TaskMachine.Abandon, RunOps, TaskMachine.Finish, InternalError, ReturnResponse, Park, Reschedule;
      calls := calls + [if pending.Some? then Throw(pending.value) else Send];
      Serve(e.stepOps);
      SettleQuiet(state, e);
      match e.result {
        case StepReturned(value) =>
          var response := ResponseFromReturnValue(value);
          Finish(response, Returned(value));
        case StepRaised(error) =>
          Finish(InternalError(), if error.CancelledError? then Cancelled(error.message) else Raised(error));
        case StepYieldedNone => RescheduleOrAbort(e);
        case StepYielded(future, park) => HandleYield(e, future, park);
      }
    }

    /** The first lock region of a turn. */
    method Claim() returns (mustCancel: bool, message: Option<Ref>, deferred: Option<Exc>, needsStart: bool)
      modifies this`state
      ensures state == Claimed(old(state)) && needsStart == old(state).coroutine.None?
      ensures (mustCancel, message, deferred) == (old(state).mustCancel, old(state).cancelMessage, old(state).deferredThrow)
      ensures state.registered == old(state).registered
    {
      mustCancel, message, deferred := state.mustCancel, state.cancelMessage, state.deferredThrow;
      needsStart := state.coroutine.None?;
      state := state.(waitingOn := None, mustCancel := false, cancelMessage := None, deferredThrow := None);
    }

    /** `__call__`: one scheduler turn. */
    method Call(e: TurnEnv)
      modifies this
      ensures Shows(old(calls), Turn(old(state), e))
      ensures old(Valid()) ==> Valid()
    {
      hide Lived, TaskMachine.Abandon, Turn, OpOutcome;
      if Valid() { LivesOn(state, calls, TurnEvent(e)); }
      TakeTurn(e);
    }

    method TakeTurn(e: TurnEnv)
      modifies this
      ensures Shows(old(calls), Turn(old(state), e))
    {
      hide Turn, TaskMachine.Finish, InternalError, Resumed, PendingThrow, Claimed, Started, CanStart;
      TurnOfFinished(state, e);
      if state.finished { return; }
      var mustCancel, cancelMessage, deferred, needsStart := Claim();
      if needsStart {
        if mustCancel {
          TurnEnds(old(state), e);
          Finish(InternalError(), Cancelled(cancelMessage));
          return;
        }
        var started := Start(e);
        if !started {
          TurnEnds(old(state), e);
          return;
        }
        TurnStarts(old(state), e);
      } else {
        TurnResumes(old(state), e);
      }
      var pending := ChooseThrow(deferred, e.wake, mustCancel, cancelMessage);
      Resume(e, pending);
    }

    /** What to throw into the coroutine, if anything. */
    static method ChooseThrow(deferred: Option<Exc>, wake: TaskMachine.Wake, mustCancel: bool, message: Option<Ref>)
      returns (pending: Option<Exc>)
      ensures pending == PendingThrow(deferred, wake, mustCancel, message)
    {
      pending := deferred;
      if wake.Woken? && wake.error.Some? { pending := wake.error; }
      if mustCancel && !(pending.Some? && pending.value.CancelledError?) {
        pending := Some(CancelledError(message));
      }
    }

    /** The rest of the turn: step the coroutine inside its task and context. */
    method Resume(e: TurnEnv, pending: Option<Exc>)
      modifies this
      ensures Shows(old(calls), Resumed(old(state), e, pending))
    {
      hide TaskMachine.Abandon, RunOps, TaskMachine.Finish, InternalError, Settle;
      if state.coroutine.None? || state.context.None? { return; }
      calls := calls + [EnterTask(e.enterOk)];
      if !e.enterOk {
        Abandon(e.closeOps);
        return;
      }
      calls := calls + [EnterContext(e.contextEntered)];
      if !e.contextEntered {
        calls := calls + [LeaveTask];
        Abandon(e.closeOps);
        return;
      }
      StepOnce(e, pending);
      calls := calls + [ExitContext];
      calls := calls + [LeaveTask];
    }
  }
}
