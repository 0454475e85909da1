/** What holds of one task over every run: its representation, its outcome, the
    fate of cancellations and of done callbacks, and the order of its last acts. */
module TaskProperties {
  import opened Wrappers
  import opened JsonWriter
  import opened Responses
  import opened TaskMachine

  // ----- Representation

  /** Coroutine and context come together, registration means started and
      unfinished, a finished task holds nothing, and at most one outcome is
      recorded, none before the end. */
  predicate Rep(s: TaskState) {
    && (s.coroutine.Some? <==> s.context.Some?)
    && (s.registered ==> s.coroutine.Some? && !s.finished)
    && (s.waitingOn.Some? || s.deferredThrow.Some? ==> s.coroutine.Some? && !s.finished)
    && !(s.waitingOn.Some? && s.deferredThrow.Some?)
    && (s.finished ==> s.doneCallbacks == [])
    && (!s.finished ==> !s.finishedCancelled && s.storedResult.None? && s.storedException.None?)
    && !(s.finishedCancelled && s.storedResult.Some?)
    && !(s.finishedCancelled && s.storedException.Some?)
    && !(s.storedResult.Some? && s.storedException.Some?)
    && (s.cancelledMessage.Some? ==> s.finishedCancelled)
  }

  /** What task-protocol calls leave alone. */
  predicate SameProgress(s: TaskState, t: TaskState) {
    && t.finished == s.finished && t.coroutine == s.coroutine && t.registered == s.registered
    && t.waitingOn == s.waitingOn && t.deferredThrow == s.deferredThrow
  }

  lemma {:induction false} OpKeepsRep(s: TaskState, op: Op)
    requires Rep(s)
    ensures Rep(OpOutcome(s, op).state) && SameProgress(s, OpOutcome(s, op).state)
  {
    hide Drops;
  }

  lemma {:induction false} OpsKeepRep(s: TaskState, ops: seq<Op>)
    requires Rep(s)
    ensures Rep(RunOps(s, ops).state) && SameProgress(s, RunOps(s, ops).state)
    decreases |ops|
  {
    hide OpOutcome, Rep;
    if ops != [] {
      OpKeepsRep(s, ops[0]);
      OpsKeepRep(OpOutcome(s, ops[0]).state, ops[1..]);
    }
  }

  lemma {:induction false} FinishKeepsRep(s: TaskState, response: HandlerResponse, completion: Completion)
    requires Rep(s)
    ensures Rep(Finish(s, response, completion).state) && Finish(s, response, completion).state.finished
  {
  }

  lemma {:induction false} AbandonKeepsRep(s: TaskState, ops: seq<Op>)
    requires Rep(s)
    ensures Rep(Abandon(s, ops).state) && Abandon(s, ops).state.finished
  {
    hide Finish, Rep, InternalError, RunOps;
    OpsKeepRep(s, ops);
    FinishKeepsRep(RunOps(s, ops).state, InternalError(), Aborted);
    FinishKeepsRep(s, InternalError(), Aborted);
  }

  /** Between two lock regions of a turn the task is unfinished, waits on nothing
      and owes no deferred error. */
  predicate MidTurn(s: TaskState) {
    Rep(s) && !s.finished && s.waitingOn.None? && s.deferredThrow.None?
  }

  lemma {:induction false} BeginKeepsRep(s: TaskState, e: TurnEnv)
    requires Rep(s)
    ensures var p := Begin(s, e);
            && Rep(p.state)
            && (p.Stop? ==> p.state.finished)
            && (p.Advance? ==> MidTurn(p.state) && p.state.coroutine.Some? && !p.state.mustCancel)
            && (p.Abort? ==> MidTurn(p.state))
  {
    hide Finish, InternalError, PendingThrow;
    if !s.finished {
      var c := Claimed(s);
      assert MidTurn(c);
      FinishKeepsRep(c, InternalError(), Cancelled(s.cancelMessage));
      FinishKeepsRep(c, InternalError(), Aborted);
      if e.factory.FactoryRaised? { FinishKeepsRep(c, InternalError(), Raised(e.factory.error)); }
    }
  }

  lemma {:induction false} SettleKeepsRep(s: TaskState, e: TurnEnv)
    requires MidTurn(s) && s.coroutine.Some?
    ensures Rep(Settle(s, e).state) && !Settle(s, e).Advance?
  {
    hide Finish, InternalError, ReturnResponse;
    if e.result.StepReturned? {
      FinishKeepsRep(s, ReturnResponse(e.result.value), Returned(e.result.value));
    } else if e.result.StepRaised? {
      var error := e.result.error;
      FinishKeepsRep(s, InternalError(), if error.CancelledError? then Cancelled(error.message) else Raised(error));
    }
  }

  lemma {:induction false} TurnKeepsRep(s: TaskState, e: TurnEnv)
    requires Rep(s)
    ensures Rep(Turn(s, e).state)
  {
    BeginKeepsRep(s, e);
    var p := Begin(s, e);
    hide Begin, Settle, Abandon, Rep, RunOps;
    if p.Abort? {
      AbandonKeepsRep(p.state, e.closeOps);
    } else if p.Advance? {
      OpsKeepRep(p.state, e.stepOps);
      var ran := RunOps(p.state, e.stepOps).state;
      assert MidTurn(ran);
      SettleKeepsRep(ran, e);
      AbandonKeepsRep(Settle(ran, e).state, e.closeOps);
    }
  }

  lemma {:induction false} StepKeepsRep(s: TaskState, event: Event)
    requires Rep(s)
    ensures Rep(Step(s, event).state)
  {
    hide Turn, OpOutcome, Abandon, Rep;
    match event {
      case TurnEvent(e) => TurnKeepsRep(s, e);
      case OpEvent(op) => OpKeepsRep(s, op);
      case DisposeEvent(ops) => AbandonKeepsRep(s, ops);
    }
  }

  lemma {:induction false} FreshRep()
    ensures Rep(FRESH)
  {
  }

  /** Every reachable state of a task satisfies the representation invariant. */
  lemma {:induction false} RunKeepsRep(s: TaskState, events: seq<Event>)
    requires Rep(s)
    ensures Rep(Run(s, events).state)
    decreases |events|
  {
    hide Step;
    if events != [] {
      StepKeepsRep(s, events[0]);
      RunKeepsRep(Step(s, events[0]).state, events[1..]);
    }
  }

  /** The defensive return of a turn is never taken in a reachable state: a turn of
      an unfinished task advances the coroutine or ends the task. */
  lemma {:induction false} TurnAdvancesOrFinishes(events: seq<Event>, e: TurnEnv)
    ensures var s := Run(FRESH, events).state;
            s.finished || Begin(s, e).Advance? || Turn(s, e).state.finished
  {
    hide Begin, Abandon, Rep, Run;
    assert Rep(FRESH) by { FreshRep(); }
    RunKeepsRep(FRESH, events);
    var s := Run(FRESH, events).state;
    BeginKeepsRep(s, e);
    AbandonKeepsRep(Begin(s, e).state, e.closeOps);
  }

  // ----- The recorded outcome

  datatype Verdict = Verdict(
    finished: bool, cancelled: bool, message: Option<Ref>, result: Option<PyValue>, error: Option<Exc>)

  function VerdictOf(s: TaskState): Verdict {
    Verdict(s.finished, s.finishedCancelled, s.cancelledMessage, s.storedResult, s.storedException)
  }

  /** What a completion is recorded as. */
  function VerdictFor(completion: Completion): Verdict {
    match completion
    case Returned(value) => Verdict(true, false, None, Some(value), None)
    case Raised(error) => Verdict(true, false, None, None, Some(error))
    case Cancelled(message) => Verdict(true, true, message, None, None)
    case Aborted => Verdict(true, false, None, None, None)
  }

  lemma {:induction false} FinishRecords(s: TaskState, response: HandlerResponse, completion: Completion)
    requires !s.finished && VerdictOf(s) == Verdict(false, false, None, None, None)
    ensures VerdictOf(Finish(s, response, completion).state) == VerdictFor(completion)
  {
  }

  lemma {:induction false} OpKeepsVerdict(s: TaskState, op: Op)
    ensures VerdictOf(OpOutcome(s, op).state) == VerdictOf(s)
  {
  }

  lemma {:induction false} OpsKeepVerdict(s: TaskState, ops: seq<Op>)
    ensures VerdictOf(RunOps(s, ops).state) == VerdictOf(s)
    decreases |ops|
  {
    hide OpOutcome;
    if ops != [] {
      OpKeepsVerdict(s, ops[0]);
      OpsKeepVerdict(OpOutcome(s, ops[0]).state, ops[1..]);
    }
  }

  lemma {:induction false} StepKeepsVerdict(s: TaskState, event: Event)
    requires s.finished
    ensures VerdictOf(Step(s, event).state) == VerdictOf(s)
  {
    hide OpOutcome, InternalError, RunOps;
    match event {
      case TurnEvent(_) =>
      case OpEvent(op) => OpKeepsVerdict(s, op);
      case DisposeEvent(ops) => OpsKeepVerdict(s, ops);
    }
  }

  /** Once finished, the outcome never changes, whatever happens to the task; a
      wake that reaches it does nothing at all. */
  lemma {:induction false} FinishedForGood(s: TaskState, events: seq<Event>)
    requires Rep(s) && s.finished
    ensures VerdictOf(Run(s, events).state) == VerdictOf(s)
    ensures forall e :: Turn(s, e) == Outcome(s, [])
    decreases |events|
  {
    if events != [] {
      var event := events[0];
      StepKeepsRep(s, event);
      StepKeepsVerdict(s, event);
      hide Step, Rep;
      FinishedForGood(Step(s, event).state, events[1..]);
    }
  }

  /** `result()` and `exception()`: still running, cancelled, an error, a value. */
  datatype Reading<T> = Running | WasCancelled(message: Option<Ref>) | Failed(error: Exc) | Gave(value: T)

  function ResultOf(s: TaskState): Reading<PyValue> {
    if !s.finished then Running
    else if s.finishedCancelled then WasCancelled(s.cancelledMessage)
    else if s.storedException.Some? then Failed(s.storedException.value)
    else Gave(if s.storedResult.Some? then s.storedResult.value else PyNone)
  }

  function ExceptionOf(s: TaskState): Reading<Option<Exc>> {
    if !s.finished then Running
    else if s.finishedCancelled then WasCancelled(s.cancelledMessage)
    else Gave(s.storedException)
  }

  // ----- Effects, filtered

  function Advances(effects: seq<Effect>): seq<Effect> {
    if effects == [] then []
    else (if effects[0].Send? || effects[0].Throw? then [effects[0]] else []) + Advances(effects[1..])
  }

  /** Net number of task entries, and of context entries, left open. */
  function TaskDepth(effects: seq<Effect>): int {
    if effects == [] then 0
    else
      (if effects[0] == EnterTask(true) then 1 else if effects[0].LeaveTask? then -1 else 0) + TaskDepth(effects[1..])
  }

  function ContextDepth(effects: seq<Effect>): int {
    if effects == [] then 0
    else
      (if effects[0] == EnterContext(true) then 1 else if effects[0].ExitContext? then -1 else 0)
      + ContextDepth(effects[1..])
  }

  /** Neither advances the coroutine, nor calls the handler, nor enters or leaves. */
  predicate Quiet(e: Effect) {
    !(e.Send? || e.Throw? || e.CallHandler? || e.EnterTask? || e.LeaveTask? || e.EnterContext? || e.ExitContext?)
  }

  predicate AllQuiet(effects: seq<Effect>) {
    forall i :: 0 <= i < |effects| ==> Quiet(effects[i])
  }

  lemma {:induction false} QuietCounts(effects: seq<Effect>)
    requires AllQuiet(effects)
    ensures Advances(effects) == [] && TaskDepth(effects) == 0 && ContextDepth(effects) == 0
    ensures CallHandler !in effects
  {
    if effects != [] {
      QuietCounts(effects[1..]);
    }
  }

  lemma {:induction false} CountsAppend(a: seq<Effect>, b: seq<Effect>)
    ensures Advances(a + b) == Advances(a) + Advances(b)
    ensures TaskDepth(a + b) == TaskDepth(a) + TaskDepth(b)
    ensures ContextDepth(a + b) == ContextDepth(a) + ContextDepth(b)
  {
    if a == [] {
      assert a + b == b;
    } else {
      assert (a + b)[1..] == a[1..] + b;
      CountsAppend(a[1..], b);
    }
  }

  lemma {:induction false} QuietAppend(a: seq<Effect>, b: seq<Effect>)
    requires AllQuiet(a) && AllQuiet(b)
    ensures AllQuiet(a + b)
  {
  }

  lemma {:induction false} FiresQuiet(callbacks: seq<Callback>)
    ensures AllQuiet(Fires(callbacks))
  {
    if callbacks != [] {
      FiresQuiet(callbacks[1..]);
    }
  }

  lemma {:induction false} DropsQuiet(callbacks: seq<Callback>)
    ensures AllQuiet(Drops(callbacks))
  {
    if callbacks != [] {
      DropsQuiet(callbacks[1..]);
    }
  }

  lemma {:induction false} OpsQuiet(s: TaskState, ops: seq<Op>)
    ensures AllQuiet(RunOps(s, ops).effects)
    decreases |ops|
  {
    if ops != [] {
      var op := ops[0];
      if op.RemoveCallback? { DropsQuiet(Gone(s.doneCallbacks, op.equal)); }
      OpsQuiet(OpOutcome(s, op).state, ops[1..]);
    }
  }

  lemma {:induction false} FinishQuiet(s: TaskState, response: HandlerResponse, completion: Completion)
    ensures AllQuiet(Finish(s, response, completion).effects)
  {
    FiresQuiet(s.doneCallbacks);
  }

  lemma {:induction false} AbandonQuiet(s: TaskState, ops: seq<Op>)
    ensures AllQuiet(Abandon(s, ops).effects)
  {
    OpsQuiet(s, ops);
    FinishQuiet(RunOps(s, ops).state, InternalError(), Aborted);
    FinishQuiet(s, InternalError(), Aborted);
  }

  lemma {:induction false} SettleQuiet(s: TaskState, e: TurnEnv)
    ensures AllQuiet(Settle(s, e).effects) && !Settle(s, e).Advance?
  {
    hide Finish, InternalError, ReturnResponse;
    if e.result.StepReturned? {
      FinishQuiet(s, ReturnResponse(e.result.value), Returned(e.result.value));
    } else if e.result.StepRaised? {
      var error := e.result.error;
      FinishQuiet(s, InternalError(), if error.CancelledError? then Cancelled(error.message) else Raised(error));
    }
  }

  /** What a turn does around its advance, the middle being quiet. */
  lemma {:induction false} TurnShape(s: TaskState, e: TurnEnv)
    requires Begin(s, e).Advance?
    ensures var p := Begin(s, e);
            var advance := if p.pending.Some? then Throw(p.pending.value) else Send;
            exists middle :: AllQuiet(middle)
                             && Turn(s, e).effects == p.effects + [advance] + middle + [ExitContext, LeaveTask]
  {
    var p := Begin(s, e);
    hide Begin, Settle, Abandon, RunOps, AllQuiet;
    var advance := if p.pending.Some? then Throw(p.pending.value) else Send;
    var ran := RunOps(p.state, e.stepOps);
    SettleQuiet(ran.state, e);
    var settled := Conclude(Settle(ran.state, e), e.closeOps);
    OpsQuiet(p.state, e.stepOps);
    AbandonQuiet(Settle(ran.state, e).state, e.closeOps);
    var middle := ran.effects + settled.effects;
    QuietAppend(Settle(ran.state, e).effects, Abandon(Settle(ran.state, e).state, e.closeOps).effects);
    QuietAppend(ran.effects, settled.effects);
    assert p.effects + [advance] + ran.effects + settled.effects + [ExitContext, LeaveTask]
        == p.effects + [advance] + middle + [ExitContext, LeaveTask];
  }

  /** Every turn leaves the current task and context as it found them, advances the
      coroutine at most once, and does so inside both. */
  lemma {:induction false} TurnIsBalanced(s: TaskState, e: TurnEnv)
    ensures var effects := Turn(s, e).effects;
            && TaskDepth(effects) == 0 && ContextDepth(effects) == 0
            && |Advances(effects)| <= 1
            && (Advances(effects) != [] ==>
                  exists k :: 0 <= k < |effects| && (effects[k].Send? || effects[k].Throw?)
                              && TaskDepth(effects[..k]) == 1 && ContextDepth(effects[..k]) == 1)
  {
    var p, effects := Begin(s, e), Turn(s, e).effects;
    BeginCounts(s, e);
    hide Begin, Advances, TaskDepth, ContextDepth, AllQuiet, Settle, Abandon, RunOps;
    if p.Advance? {
      TurnShape(s, e);
      var advance := if p.pending.Some? then Throw(p.pending.value) else Send;
      var middle :| AllQuiet(middle) && effects == p.effects + [advance] + middle + [ExitContext, LeaveTask];
      QuietCounts(middle);
      CountsAppend(p.effects, [advance]);
      CountsAppend(p.effects + [advance], middle);
      CountsAppend(p.effects + [advance] + middle, [ExitContext, LeaveTask]);
      SmallCounts(advance);
      assert effects[|p.effects|] == advance && effects[..|p.effects|] == p.effects;
    } else if p.Abort? {
      AbandonQuiet(p.state, e.closeOps);
      QuietCounts(Abandon(p.state, e.closeOps).effects);
      CountsAppend(p.effects, Abandon(p.state, e.closeOps).effects);
    }
  }

  lemma {:induction false} SmallCounts(advance: Effect)
    requires advance.Send? || advance.Throw?
    ensures Advances([advance]) == [advance] && TaskDepth([advance]) == 0 && ContextDepth([advance]) == 0
    ensures var exit := [ExitContext, LeaveTask];
            Advances(exit) == [] && TaskDepth(exit) == -1 && ContextDepth(exit) == -1
  {
  }

  /** Before the advance: nothing advanced yet, and both entered exactly when the
      advance is next. */
  lemma {:induction false} BeginCounts(s: TaskState, e: TurnEnv)
    ensures var p := Begin(s, e);
            var depth := if p.Advance? then 1 else 0;
            Advances(p.effects) == [] && TaskDepth(p.effects) == depth && ContextDepth(p.effects) == depth
  {
    hide Finish, Start, Enter, InternalError, Claimed, PendingThrow;
    if !s.finished {
      var c := Claimed(s);
      if s.coroutine.None? && s.mustCancel {
        FinishQuiet(c, InternalError(), Cancelled(s.cancelMessage));
        QuietCounts(Begin(s, e).effects);
      } else if s.coroutine.None? {
        StartCounts(c, e, PendingThrow(s.deferredThrow, e.wake, s.mustCancel, s.cancelMessage));
      } else {
        EnterCounts(c, e, PendingThrow(s.deferredThrow, e.wake, s.mustCancel, s.cancelMessage));
      }
    }
  }

  lemma {:induction false} EnterCounts(s: TaskState, e: TurnEnv, pending: Option<Exc>)
    ensures var p := Enter(s, e, pending);
            var depth := if p.Advance? then 1 else 0;
            Advances(p.effects) == [] && TaskDepth(p.effects) == depth && ContextDepth(p.effects) == depth
  {
    hide Advances, TaskDepth, ContextDepth;
    EmptyCounts();
    EachCount(EnterTask(true));
    EachCount(EnterTask(false));
    EachCount(EnterContext(true));
    EachCount(EnterContext(false));
    EachCount(LeaveTask);
    CountsAppend([EnterTask(true)], [EnterContext(true)]);
    CountsAppend([EnterTask(true)], [EnterContext(false)]);
    CountsAppend([EnterTask(true)] + [EnterContext(false)], [LeaveTask]);
    assert [EnterTask(true)] + [EnterContext(true)] == [EnterTask(true), EnterContext(true)];
    assert [EnterTask(true)] + [EnterContext(false)] + [LeaveTask] == [EnterTask(true), EnterContext(false), LeaveTask];
  }

  lemma {:induction false} EmptyCounts()
    ensures Advances([]) == [] && TaskDepth([]) == 0 && ContextDepth([]) == 0
  {
  }

  lemma {:induction false} EachCount(e: Effect)
    ensures TaskDepth([e]) == (if e == EnterTask(true) then 1 else if e.LeaveTask? then -1 else 0)
    ensures ContextDepth([e]) == (if e == EnterContext(true) then 1 else if e.ExitContext? then -1 else 0)
    ensures Advances([e]) == if e.Send? || e.Throw? then [e] else []
  {
  }

  lemma {:induction false} StartCounts(s: TaskState, e: TurnEnv, pending: Option<Exc>)
    ensures var p := Start(s, e, pending);
            var depth := if p.Advance? then 1 else 0;
            Advances(p.effects) == [] && TaskDepth(p.effects) == depth && ContextDepth(p.effects) == depth
  {
    hide Finish, Enter, InternalError, Advances, TaskDepth, ContextDepth;
    var p := Start(s, e, pending);
    match e.factory {
      case FactoryRaised(error) =>
        FinishQuiet(s, InternalError(), Raised(error));
        CountsAfterHandler([], Finish(s, InternalError(), Raised(error)).effects, p.effects);
      case Built(coroutine, context) =>
        if !e.contextCopied {
          FinishQuiet(s, InternalError(), Aborted);
          CountsAfterHandler([CopyContext(false), DiscardCoroutine], Finish(s, InternalError(), Aborted).effects, p.effects);
        } else {
          var t := s.(coroutine := Some(coroutine), context := Some(context), registered := s.registered || e.registerOk);
          EnterCounts(t, e, pending);
          HandlerCounts([CopyContext(true), RegisterTask(e.registerOk)], Enter(t, e, pending).effects, p.effects);
        }
    }
  }

  lemma {:induction false} HandlerCounts(quiet: seq<Effect>, rest: seq<Effect>, whole: seq<Effect>)
    requires AllQuiet(quiet) && whole == [CallHandler] + quiet + rest
    ensures Advances(whole) == Advances(rest) && TaskDepth(whole) == TaskDepth(rest)
    ensures ContextDepth(whole) == ContextDepth(rest)
  {
    QuietCounts(quiet);
    CountsAppend(quiet, rest);
    assert whole[1..] == quiet + rest;
  }

  lemma {:induction false} CountsAfterHandler(quiet: seq<Effect>, rest: seq<Effect>, whole: seq<Effect>)
    requires AllQuiet(quiet) && AllQuiet(rest) && whole == [CallHandler] + quiet + rest
    ensures Advances(whole) == [] && TaskDepth(whole) == 0 && ContextDepth(whole) == 0
  {
    QuietCounts(rest);
    HandlerCounts(quiet, rest, whole);
  }
}
