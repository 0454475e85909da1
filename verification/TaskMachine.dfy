/** What one `HandlerTask` does (crates/dispatch/src/lib.rs), as functions of its
    `TaskState`. Every call into Python is an `Effect`, in order; every reply of
    Python, failures included, is an input. */
module TaskMachine {
  import opened Wrappers
  import opened JsonWriter
  import opened Responses

  const U32: nat := 0x1_0000_0000

  /** An opaque Python object. */
  type Ref = nat

  datatype BadYield = NotAFuture | YieldedWithoutAwait | ForeignLoop

  datatype Exc =
    | CancelledError(message: Option<Ref>)
    | ProtocolError(why: BadYield)
    | OtherError(id: Ref)

  datatype Completion =
    | Returned(value: PyValue)
    | Raised(error: Exc)
    | Cancelled(message: Option<Ref>)
    | Aborted

  /** A done callback with its context. `weight` bounds the callbacks its own code
      will queue; only the progress argument reads it. */
  datatype Callback = Callback(callable: Ref, context: Ref, weight: nat)

  datatype TaskState = TaskState(
    coroutine: Option<Ref>,
    context: Option<Ref>,
    waitingOn: Option<Ref>,
    deferredThrow: Option<Exc>,
    mustCancel: bool,
    cancelMessage: Option<Ref>,
    cancelRequests: nat,
    registered: bool,
    doneCallbacks: seq<Callback>,
    finished: bool,
    finishedCancelled: bool,
    cancelledMessage: Option<Ref>,
    storedResult: Option<PyValue>,
    storedException: Option<Exc>)

  /** `TaskState::default()`. */
  const FRESH: TaskState :=
    TaskState(None, None, None, None, false, None, 0, false, [], false, false, None, None, None)

  datatype CancelReply = Absorbed | Declined | Errored

  /** The calls a task makes, in the order it makes them; the last five record
      how it ended and the task-protocol calls it serves. */
  datatype Effect =
    | CallHandler
    | CopyContext(ok: bool)
    | DiscardCoroutine
    | RegisterTask(ok: bool)
    | EnterTask(ok: bool)
    | EnterContext(ok: bool)
    | Send
    | Throw(error: Exc)
    | ExitContext
    | LeaveTask
    | CloseCoroutine
    | ClearBlocking(future: Ref)
    | AddDoneCallback(future: Ref, ok: bool)
    | CancelFuture(future: Ref, reply: CancelReply)
    | CallSoonSelf(ok: bool)
    | RemoveLive
    | UnregisterTask
    | Fire(callback: Callback)
    | Respond(response: HandlerResponse)
    | Ended(completion: Completion)
    | CancelAsked
    | UncancelAsked
    | Accept(callback: Callback)
    | Drop(callback: Callback)

  datatype Outcome = Outcome(state: TaskState, effects: seq<Effect>)

  function Prefix(effects: seq<Effect>, o: Outcome): Outcome {
    Outcome(o.state, effects + o.effects)
  }

  // ----- Task-protocol calls

  /** A call Python code makes on the task, with the replies it meets. */
  datatype Op =
    | Cancel(message: Option<Ref>, reply: CancelReply)
    | Uncancel
    | AddCallback(callback: Callback, contextCopied: bool)
    | RemoveCallback(equal: set<Ref>)

  /** `cancel`: the awaited future may absorb it, else the next step throws. */
  function CancelOutcome(s: TaskState, message: Option<Ref>, reply: CancelReply): Outcome {
    if s.finished then Outcome(s, [])
    else
      var asked := s.(cancelRequests := (s.cancelRequests + 1) % U32, cancelMessage := message);
      if s.waitingOn.None? then Outcome(asked.(mustCancel := true), [CancelAsked])
      else
        Outcome(if reply.Absorbed? then asked else asked.(mustCancel := true),
                [CancelAsked, CancelFuture(s.waitingOn.value, reply)])
  }

  /** `uncancel`: a saturating decrement that clears the flag at zero. */
  function Uncancelled(s: TaskState): TaskState {
    var left := if s.cancelRequests > 0 then s.cancelRequests - 1 else 0;
    s.(cancelRequests := left, mustCancel := s.mustCancel && left != 0)
  }

  function Without(callbacks: seq<Callback>, equal: set<Ref>): seq<Callback> {
    if callbacks == [] then []
    else (if callbacks[0].callable in equal then [] else [callbacks[0]]) + Without(callbacks[1..], equal)
  }

  /** The callbacks `Without` leaves out. */
  function Gone(callbacks: seq<Callback>, equal: set<Ref>): seq<Callback> {
    if callbacks == [] then []
    else (if callbacks[0].callable in equal then [callbacks[0]] else []) + Gone(callbacks[1..], equal)
  }

  function Drops(callbacks: seq<Callback>): seq<Effect> {
    if callbacks == [] then [] else [Drop(callbacks[0])] + Drops(callbacks[1..])
  }

  function OpOutcome(s: TaskState, op: Op): Outcome {
    match op
    case Cancel(message, reply) => CancelOutcome(s, message, reply)
    case Uncancel => Outcome(Uncancelled(s), [UncancelAsked])
    case AddCallback(callback, contextCopied) =>
      if !contextCopied then Outcome(s, [])
      else if s.finished then Outcome(s, [Accept(callback), Fire(callback)])
      else Outcome(s.(doneCallbacks := s.doneCallbacks + [callback]), [Accept(callback)])
    case RemoveCallback(equal) =>
      Outcome(s.(doneCallbacks := Without(s.doneCallbacks, equal)), Drops(Gone(s.doneCallbacks, equal)))
  }

  function RunOps(s: TaskState, ops: seq<Op>): Outcome
    decreases |ops|
  {
    if ops == [] then Outcome(s, [])
    else
      var first := OpOutcome(s, ops[0]);
      Prefix(first.effects, RunOps(first.state, ops[1..]))
  }

  // ----- Finishing

  function Recorded(s: TaskState, completion: Completion): TaskState {
    match completion
    case Returned(value) => s.(storedResult := Some(value))
    case Raised(error) => s.(storedException := Some(error))
    case Cancelled(message) => s.(finishedCancelled := true, cancelledMessage := message)
    case Aborted => s
  }

  function Fires(callbacks: seq<Callback>): seq<Effect> {
    if callbacks == [] then [] else [Fire(callbacks[0])] + Fires(callbacks[1..])
  }

  /** What `finish` does: record how the task ended, and then its calls: off the live
      list, out of asyncio, callbacks in order, the response last. */
  function FinishProgram(completion: Completion, registered: bool, callbacks: seq<Callback>, response: HandlerResponse): seq<Effect> {
    [Ended(completion), RemoveLive] + (if registered then [UnregisterTask] else []) + Fires(callbacks) + [Respond(response)]
  }

  function Finish(s: TaskState, response: HandlerResponse, completion: Completion): Outcome {
    if s.finished then Outcome(s, [Respond(response)])
    else
      var done := Recorded(s.(finished := true, waitingOn := None, deferredThrow := None), completion);
      Outcome(done.(registered := false, doneCallbacks := []),
              FinishProgram(completion, s.registered, s.doneCallbacks, response))
  }

  /** Close the coroutine, if any, letting its cleanup run `ops`, and finish with
      nothing to show: `dispose`, and the abort paths of a turn. */
  function Abandon(s: TaskState, ops: seq<Op>): Outcome {
    if s.coroutine.None? then Finish(s, InternalError(), Aborted)
    else
      var closed := RunOps(s, ops);
      Prefix([CloseCoroutine] + closed.effects, Finish(closed.state, InternalError(), Aborted))
  }

  // ----- One turn (`__call__`)

  /** How the turn was entered: by `call_soon`, or by a finished future whose
      `result()` raised or not. */
  datatype Wake = Bare | Woken(error: Option<Exc>)

  datatype FactoryReply = Built(coroutine: Ref, context: Ref) | FactoryRaised(error: Exc)

  datatype ParkReplies = ParkReplies(
    hasFlag: bool, blocking: bool, foreignLoop: bool, flagCleared: bool, callbackAdded: bool, cancel: CancelReply)

  datatype StepResult =
    | StepReturned(value: PyValue)
    | StepRaised(error: Exc)
    | StepYieldedNone
    | StepYielded(future: Ref, park: ParkReplies)

  /** Everything Python answers during one turn, and what its code does to the task
      while the coroutine runs (`stepOps`) or is closed (`closeOps`). */
  datatype TurnEnv = TurnEnv(
    wake: Wake,
    factory: FactoryReply,
    contextCopied: bool,
    registerOk: bool,
    enterOk: bool,
    contextEntered: bool,
    stepOps: seq<Op>,
    result: StepResult,
    rescheduled: bool,
    closeOps: seq<Op>)

  /** Where a part of the turn leads: it is over, the task must be abandoned, or
      the coroutine is about to be advanced. */
  datatype Phase =
    | Stop(state: TaskState, effects: seq<Effect>)
    | Abort(state: TaskState, effects: seq<Effect>)
    | Advance(state: TaskState, pending: Option<Exc>, effects: seq<Effect>)

  function Stopped(o: Outcome): Phase {
    Stop(o.state, o.effects)
  }

  function After(effects: seq<Effect>, p: Phase): Phase {
    match p
    case Stop(state, rest) => Stop(state, effects + rest)
    case Abort(state, rest) => Abort(state, effects + rest)
    case Advance(state, pending, rest) => Advance(state, pending, effects + rest)
  }

  /** What to throw: a wake's error overrides a deferred one, and a pending
      cancellation overrides both unless the error is a cancellation already. */
  function PendingThrow(deferred: Option<Exc>, wake: Wake, mustCancel: bool, message: Option<Ref>): Option<Exc> {
    var carried := if wake.Woken? && wake.error.Some? then wake.error else deferred;
    if mustCancel && !(carried.Some? && carried.value.CancelledError?)
    then Some(CancelledError(message))
    else carried
  }

  /** The state once the turn has taken the flags it acts on. */
  function Claimed(s: TaskState): TaskState {
    s.(waitingOn := None, mustCancel := false, cancelMessage := None, deferredThrow := None)
  }

  function Enter(s: TaskState, e: TurnEnv, pending: Option<Exc>): Phase {
    if s.coroutine.None? || s.context.None? then Stop(s, []) // the defensive return
    else if !e.enterOk then Abort(s, [EnterTask(false)])
    else if !e.contextEntered then Abort(s, [EnterTask(true), EnterContext(false), LeaveTask])
    else Advance(s, pending, [EnterTask(true), EnterContext(true)])
  }

  /** `start`, and on to entering if it succeeds. */
  function Start(s: TaskState, e: TurnEnv, pending: Option<Exc>): Phase {
    match e.factory
    case FactoryRaised(error) => After([CallHandler], Stopped(Finish(s, InternalError(), Raised(error))))
    case Built(coroutine, context) =>
      if !e.contextCopied then
        After([CallHandler, CopyContext(false), DiscardCoroutine], Stopped(Finish(s, InternalError(), Aborted)))
      else
        After([CallHandler, CopyContext(true), RegisterTask(e.registerOk)],
              Enter(s.(coroutine := Some(coroutine), context := Some(context), registered := s.registered || e.registerOk), e, pending))
  }

  /** The turn up to the point where the coroutine is advanced. */
  function Begin(s: TaskState, e: TurnEnv): Phase {
    if s.finished then Stop(s, [])
    else
      var pending := PendingThrow(s.deferredThrow, e.wake, s.mustCancel, s.cancelMessage);
      if s.coroutine.Some? then Enter(Claimed(s), e, pending)
      else if s.mustCancel then Stopped(Finish(Claimed(s), InternalError(), Cancelled(s.cancelMessage)))
      else Start(Claimed(s), e, pending)
  }

  function Reschedule(s: TaskState, e: TurnEnv): (p: Phase)
    ensures !p.Advance?
  {
    if e.rescheduled then Stop(s, [CallSoonSelf(true)]) else Abort(s, [CallSoonSelf(false)])
  }

  function Misuse(park: ParkReplies): Option<BadYield> {
    if !park.hasFlag then Some(NotAFuture)
    else if !park.blocking then Some(YieldedWithoutAwait)
    else if park.foreignLoop then Some(ForeignLoop)
    else None
  }

  /** `park_on_future` and what follows it. */
  function Park(s: TaskState, e: TurnEnv, future: Ref, park: ParkReplies): (p: Phase)
    ensures !p.Advance?
  {
    var misuse := Misuse(park);
    if misuse.Some? then Reschedule(s.(deferredThrow := Some(ProtocolError(misuse.value))), e)
    else if !park.flagCleared then Abort(s, [ClearBlocking(future)])
    else if !park.callbackAdded then
      Abort(s.(waitingOn := None), [ClearBlocking(future), AddDoneCallback(future, false)])
    else
      var parked := s.(waitingOn := Some(future));
      var calls := [ClearBlocking(future), AddDoneCallback(future, true)];
      if !s.mustCancel then Stop(parked, calls)
      else
        Stop(if park.cancel.Absorbed? then parked.(mustCancel := false) else parked,
             calls + [CancelFuture(future, park.cancel)])
  }

  /** `step_once` once the coroutine has answered. */
  function Settle(s: TaskState, e: TurnEnv): (p: Phase)
    ensures !p.Advance?
  {
    match e.result
    case StepReturned(value) => Stopped(Finish(s, ReturnResponse(value), Returned(value)))
    case StepRaised(error) =>
      Stopped(Finish(s, InternalError(),
                     if error.CancelledError? then Cancelled(error.message) else Raised(error)))
    case StepYieldedNone => Reschedule(s, e)
    case StepYielded(future, park) => Park(s, e, future, park)
  }

  function Conclude(p: Phase, closeOps: seq<Op>): Outcome
    requires !p.Advance?
  {
    if p.Stop? then Outcome(p.state, p.effects) else Prefix(p.effects, Abandon(p.state, closeOps))
  }

  function Turn(s: TaskState, e: TurnEnv): Outcome {
    var p := Begin(s, e);
    if !p.Advance? then Conclude(p, e.closeOps)
    else
      var advance := if p.pending.Some? then Throw(p.pending.value) else Send;
      var ran := RunOps(p.state, e.stepOps);
      var settled := Conclude(Settle(ran.state, e), e.closeOps);
      Outcome(settled.state, p.effects + [advance] + ran.effects + settled.effects + [ExitContext, LeaveTask])
  }

  // ----- Runs

  /** What can happen to a task: a turn, a call from other Python code, or the
      disposal of a task whose loop is gone. */
  datatype Event = TurnEvent(env: TurnEnv) | OpEvent(op: Op) | DisposeEvent(ops: seq<Op>)

  function Step(s: TaskState, event: Event): Outcome {
    match event
    case TurnEvent(e) => Turn(s, e)
    case OpEvent(op) => OpOutcome(s, op)
    case DisposeEvent(ops) => Abandon(s, ops)
  }

  function Run(s: TaskState, events: seq<Event>): Outcome
    decreases |events|
  {
    if events == [] then Outcome(s, [])
    else
      var first := Step(s, events[0]);
      Prefix(first.effects, Run(first.state, events[1..]))
  }
}
