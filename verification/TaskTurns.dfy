/** What one turn of a task does, case by case and in full: whether it advances the
    coroutine and with what, what it reports to the client and to the accessors, and how
    it leaves the task. */
module TaskTurns {
  import opened Wrappers
  import opened JsonWriter
  import opened Responses
  import opened TaskMachine
  import opened TaskProperties
  import opened TaskCancellation

  // ----- Whether and how the coroutine is advanced

  /** There is a coroutine to step, or one can be built, and both the task registration
      and the context can be entered. */
  predicate Advancing(s: TaskState, e: TurnEnv) {
    && (s.coroutine.Some? || (!s.mustCancel && e.factory.Built? && e.contextCopied))
    && e.enterOk && e.contextEntered
  }

  /** The error of the future that woke the task. */
  predicate WokenWith(e: TurnEnv, error: Exc) {
    e.wake.Woken? && e.wake.error == Some(error)
  }

  predicate WokenQuietly(e: TurnEnv) {
    e.wake.Bare? || e.wake.error.None?
  }

  lemma {:induction false} BeginAdvances(s: TaskState, e: TurnEnv)
    requires Rep(s) && !s.finished
    ensures Begin(s, e).Advance? <==> Advancing(s, e)
    ensures Begin(s, e).Advance? ==>
              Begin(s, e).pending == PendingThrow(s.deferredThrow, e.wake, s.mustCancel, s.cancelMessage)
    ensures CallHandler in Begin(s, e).effects <==> s.coroutine.None? && !s.mustCancel
  {
    hide PendingThrow, InternalError, AllQuiet;
    if s.coroutine.None? && s.mustCancel {
      FinishQuiet(Claimed(s), InternalError(), Cancelled(s.cancelMessage));
      QuietCounts(Finish(Claimed(s), InternalError(), Cancelled(s.cancelMessage)).effects);
    }
    hide Finish;
    if s.coroutine.None? && !s.mustCancel {
      assert Begin(s, e).effects[0] == CallHandler;
    }
  }

  /** The advances of a turn of an unfinished task, exactly. It advances once if it can and
      not at all otherwise; it throws a cancellation with the message of the last `cancel`
      if one is owed and the error at hand is not a cancellation already; otherwise it
      throws the waking future's error, or else the deferred one, or else it sends. */
  lemma {:induction false} TurnAdvancesExactly(s: TaskState, e: TurnEnv)
    requires Rep(s) && !s.finished
    ensures var advances := Advances(Turn(s, e).effects);
            && (!Advancing(s, e) ==> advances == [])
            && (Advancing(s, e) && s.mustCancel && (forall x :: WokenWith(e, x) ==> !x.CancelledError?)
                && (WokenQuietly(e) && s.deferredThrow.Some? ==> !s.deferredThrow.value.CancelledError?) ==>
                  advances == [Throw(CancelledError(s.cancelMessage))])
            && (forall x :: Advancing(s, e) && WokenWith(e, x) && (s.mustCancel ==> x.CancelledError?) ==>
                  advances == [Throw(x)])
            && (forall x :: Advancing(s, e) && WokenQuietly(e) && s.deferredThrow == Some(x) && (s.mustCancel ==> x.CancelledError?) ==>
                  advances == [Throw(x)])
            && (Advancing(s, e) && WokenQuietly(e) && s.deferredThrow.None? && !s.mustCancel ==> advances == [Send])
  {
    hide Rep, Turn, Begin, Advances, Advancing, PendingThrow;
    BeginAdvances(s, e);
    PendingIs(s, e);
    if Advancing(s, e) {
      OnlyAdvance(s, e);
    } else {
      NoAdvance(s, e);
    }
  }

  lemma {:induction false} PendingIs(s: TaskState, e: TurnEnv)
    ensures var pending := PendingThrow(s.deferredThrow, e.wake, s.mustCancel, s.cancelMessage);
            && (s.mustCancel && (forall x :: WokenWith(e, x) ==> !x.CancelledError?)
                && (WokenQuietly(e) && s.deferredThrow.Some? ==> !s.deferredThrow.value.CancelledError?) ==>
                  pending == Some(CancelledError(s.cancelMessage)))
            && (forall x :: WokenWith(e, x) && (s.mustCancel ==> x.CancelledError?) ==> pending == Some(x))
            && (forall x :: WokenQuietly(e) && s.deferredThrow == Some(x) && (s.mustCancel ==> x.CancelledError?) ==> pending == Some(x))
            && (WokenQuietly(e) && s.deferredThrow.None? && !s.mustCancel ==> pending == None)
  {
    if e.wake.Woken? && e.wake.error.Some? { assert WokenWith(e, e.wake.error.value); }
  }

  lemma {:induction false} NoAdvance(s: TaskState, e: TurnEnv)
    requires Rep(s) && !Begin(s, e).Advance?
    ensures Advances(Turn(s, e).effects) == []
  {
    hide Begin, Rep, Advances, Abandon, AllQuiet;
    var p := Begin(s, e);
    BeginCounts(s, e);
    AbandonQuiet(p.state, e.closeOps);
    QuietCounts(Abandon(p.state, e.closeOps).effects);
    CountsAppend(p.effects, Abandon(p.state, e.closeOps).effects);
  }

  // ----- What a turn reports

  /** What a turn lets others see of an end: the coroutine closed, or thrown away unstarted;
      the completion recorded; the response sent. */
  datatype Report = Closes | Discards | Ends(completion: Completion) | Answers(response: HandlerResponse)

  function ReportOf(e: Effect): seq<Report> {
    match e
    case CloseCoroutine => [Closes]
    case DiscardCoroutine => [Discards]
    case Ended(completion) => [Ends(completion)]
    case Respond(response) => [Answers(response)]
    case _ => []
  }

  function Reports(effects: seq<Effect>): seq<Report> {
    if effects == [] then [] else ReportOf(effects[0]) + Reports(effects[1..])
  }

  lemma {:induction false} ReportsAppend(a: seq<Effect>, b: seq<Effect>)
    ensures Reports(a + b) == Reports(a) + Reports(b)
  {
    hide ReportOf;
    if a == [] {
      assert a + b == b;
    } else {
      assert (a + b)[1..] == a[1..] + b;
      ReportsAppend(a[1..], b);
    }
  }

  lemma {:induction false} ReportsOne(e: Effect)
    ensures Reports([e]) == ReportOf(e)
  {
    assert [e][1..] == [];
  }

  predicate Silent(effects: seq<Effect>) {
    forall i :: 0 <= i < |effects| ==> ReportOf(effects[i]) == []
  }

  lemma {:induction false} SilentReports(effects: seq<Effect>)
    requires Silent(effects)
    ensures Reports(effects) == []
  {
    hide ReportOf;
    if effects != [] { SilentReports(effects[1..]); }
  }

  lemma {:induction false} DropsSilent(callbacks: seq<Callback>)
    ensures Silent(Drops(callbacks))
  {
    if callbacks != [] { DropsSilent(callbacks[1..]); }
  }

  lemma {:induction false} FiresSilent(callbacks: seq<Callback>)
    ensures Silent(Fires(callbacks))
  {
    if callbacks != [] { FiresSilent(callbacks[1..]); }
  }

  lemma {:induction false} OpSilent(s: TaskState, op: Op)
    ensures Silent(OpOutcome(s, op).effects)
  {
    hide Drops, Without, Gone;
    if op.RemoveCallback? { DropsSilent(Gone(s.doneCallbacks, op.equal)); }
  }

  lemma {:induction false} OpsSilent(s: TaskState, ops: seq<Op>)
    ensures Reports(RunOps(s, ops).effects) == []
    decreases |ops|
  {
    hide OpOutcome, Silent;
    if ops != [] {
      var first := OpOutcome(s, ops[0]);
      OpSilent(s, ops[0]);
      SilentReports(first.effects);
      OpsSilent(first.state, ops[1..]);
      ReportsAppend(first.effects, RunOps(first.state, ops[1..]).effects);
    }
  }

  lemma {:induction false} FinishReports(s: TaskState, response: HandlerResponse, completion: Completion)
    requires !s.finished
    ensures Reports(Finish(s, response, completion).effects) == [Ends(completion), Answers(response)]
    ensures Finish(s, response, completion).state.finished
  {
    hide Reports, Fires, Silent;
    var head := [RemoveLive] + if s.registered then [UnregisterTask] else [];
    var effects := Finish(s, response, completion).effects;
    assert effects == [Ended(completion)] + (head + Fires(s.doneCallbacks) + [Respond(response)]);
    ReportsOne(Ended(completion));
    ReportsOne(Respond(response));
    HeadSilent(s.registered);
    SilentReports(head);
    FiresSilent(s.doneCallbacks);
    SilentReports(Fires(s.doneCallbacks));
    ReportsAppend(head, Fires(s.doneCallbacks));
    ReportsAppend(head + Fires(s.doneCallbacks), [Respond(response)]);
    ReportsAppend([Ended(completion)], head + Fires(s.doneCallbacks) + [Respond(response)]);
  }

  lemma {:induction false} HeadSilent(registered: bool)
    ensures Silent([RemoveLive] + if registered then [UnregisterTask] else [])
  {
  }

  /** The reports of a task that is given up. */
  const GIVEN_UP: seq<Report> := [Closes, Ends(Aborted), Answers(InternalError())]

  lemma {:induction false} AbandonReports(s: TaskState, ops: seq<Op>)
    requires Rep(s) && !s.finished && s.coroutine.Some?
    ensures Reports(Abandon(s, ops).effects) == GIVEN_UP && Abandon(s, ops).state.finished
  {
    hide Reports, Finish, RunOps, Rep, InternalError;
    var closed := RunOps(s, ops);
    var end := Finish(closed.state, InternalError(), Aborted);
    OpsKeepRep(s, ops);
    OpsSilent(s, ops);
    ReportsOne(CloseCoroutine);
    FinishReports(closed.state, InternalError(), Aborted);
    ReportsAppend([CloseCoroutine], closed.effects);
    ReportsAppend([CloseCoroutine] + closed.effects, end.effects);
  }

  /** Reports of the part before the coroutine is advanced. */
  lemma {:induction false} BeginReports(s: TaskState, e: TurnEnv)
    requires Rep(s) && !s.finished
    ensures var p := Begin(s, e);
            && (p.Stop? <==> s.coroutine.None? && (s.mustCancel || !e.factory.Built? || !e.contextCopied))
            && (!p.Stop? ==> Reports(p.effects) == [])
            && (p.Stop? && s.mustCancel ==> Reports(p.effects) == [Ends(Cancelled(s.cancelMessage)), Answers(InternalError())])
            && (p.Stop? && !s.mustCancel && e.factory.FactoryRaised? ==>
                  Reports(p.effects) == [Ends(Raised(e.factory.error)), Answers(InternalError())])
            && (p.Stop? && !s.mustCancel && e.factory.Built? ==>
                  Reports(p.effects) == [Discards, Ends(Aborted), Answers(InternalError())])
            && (p.Stop? ==> p.state.finished)
  {
    hide Reports, Finish, InternalError, PendingThrow;
    var p, c := Begin(s, e), Claimed(s);
    if s.coroutine.None? && s.mustCancel {
      FinishReports(c, InternalError(), Cancelled(s.cancelMessage));
    } else if s.coroutine.None? && e.factory.FactoryRaised? {
      StartReports([CallHandler], [], c, Raised(e.factory.error));
    } else if s.coroutine.None? && !e.contextCopied {
      StartReports([CallHandler, CopyContext(false)], [DiscardCoroutine], c, Aborted);
    } else {
      SilentReports(p.effects);
    }
  }

  lemma {:induction false} StartReports(quiet: seq<Effect>, discard: seq<Effect>, s: TaskState, completion: Completion)
    requires Silent(quiet) && !s.finished && (discard == [] || discard == [DiscardCoroutine])
    ensures Reports(quiet + discard + Finish(s, InternalError(), completion).effects)
         == (if discard == [] then [] else [Discards]) + [Ends(completion), Answers(InternalError())]
    ensures Finish(s, InternalError(), completion).state.finished
    ensures discard == [] ==> quiet + discard == quiet
    ensures quiet == [CallHandler, CopyContext(false)] && discard != [] ==>
              quiet + discard == [CallHandler, CopyContext(false), DiscardCoroutine]
  {
    hide Reports, Finish, InternalError;
    SilentReports(quiet);
    NoReports();
    ReportsOne(DiscardCoroutine);
    FinishReports(s, InternalError(), completion);
    ReportsAppend(quiet, discard);
    ReportsAppend(quiet + discard, Finish(s, InternalError(), completion).effects);
  }

  lemma {:induction false} NoReports()
    ensures Reports([]) == []
  {
  }

  // ----- What becomes of a yield

  /** The yielded object is not something to park on: it has no flag, or the flag is not
      set, or it belongs to another loop. */
  predicate BadPark(park: ParkReplies) {
    !park.hasFlag || !park.blocking || park.foreignLoop
  }

  /** The task goes on after this yield: every call on the way succeeded. */
  predicate GoesOn(e: TurnEnv) {
    || (e.result.StepYieldedNone? && e.rescheduled)
    || (e.result.StepYielded? &&
          if BadPark(e.result.park) then e.rescheduled else e.result.park.flagCleared && e.result.park.callbackAdded)
  }

  lemma {:induction false} SettleReports(s: TaskState, e: TurnEnv)
    requires MidTurn(s) && s.coroutine.Some?
    ensures var o := Conclude(Settle(s, e), e.closeOps);
            && (e.result.StepReturned? ==>
                  o.state.finished && Reports(o.effects) == [Ends(Returned(e.result.value)), Answers(ReturnResponse(e.result.value))])
            && (e.result.StepRaised? && e.result.error.CancelledError? ==>
                  o.state.finished && Reports(o.effects) == [Ends(Cancelled(e.result.error.message)), Answers(InternalError())])
            && (e.result.StepRaised? && !e.result.error.CancelledError? ==>
                  o.state.finished && Reports(o.effects) == [Ends(Raised(e.result.error)), Answers(InternalError())])
            && (e.result.StepYieldedNone? || e.result.StepYielded? ==>
                  if GoesOn(e) then !o.state.finished && Reports(o.effects) == [] else o.state.finished && Reports(o.effects) == GIVEN_UP)
  {
    hide Reports, Finish, InternalError, ReturnResponse, Abandon, Rep;
    SettleKeepsRep(s, e);
    var p := Settle(s, e);
    match e.result {
      case StepReturned(value) => FinishReports(s, ReturnResponse(value), Returned(value));
      case StepRaised(error) =>
        FinishReports(s, InternalError(), if error.CancelledError? then Cancelled(error.message) else Raised(error));
      case _ =>
        YieldSettles(s, e);
        SilentReports(p.effects);
        if p.Abort? {
          AbandonReports(p.state, e.closeOps);
          ReportsAppend(p.effects, Abandon(p.state, e.closeOps).effects);
        }
    }
  }

  lemma {:induction false} YieldSettles(s: TaskState, e: TurnEnv)
    requires !s.finished && (e.result.StepYieldedNone? || e.result.StepYielded?)
    ensures var p := Settle(s, e);
            && (p.Stop? <==> GoesOn(e)) && Silent(p.effects) && !p.state.finished && p.state.coroutine == s.coroutine
  {
    hide Finish, InternalError, ReturnResponse;
  }

  /** The reports of a turn of an unfinished task, exactly: what it records and what it
      answers, in that order, for every way it can go. */
  lemma {:induction false} TurnReportsExactly(s: TaskState, e: TurnEnv)
    requires Rep(s) && !s.finished
    ensures var o := Turn(s, e);
            var reports := Reports(o.effects);
            && (s.coroutine.None? && s.mustCancel ==>
                  reports == [Ends(Cancelled(s.cancelMessage)), Answers(InternalError())])
            && (s.coroutine.None? && !s.mustCancel && e.factory.FactoryRaised? ==>
                  reports == [Ends(Raised(e.factory.error)), Answers(InternalError())])
            && (s.coroutine.None? && !s.mustCancel && e.factory.Built? && !e.contextCopied ==>
                  reports == [Discards, Ends(Aborted), Answers(InternalError())])
            && ((s.coroutine.Some? || (!s.mustCancel && e.factory.Built? && e.contextCopied)) && !(e.enterOk && e.contextEntered) ==>
                  reports == [Closes, Ends(Aborted), Answers(InternalError())])
            && (Advancing(s, e) && e.result.StepReturned? ==>
                  reports == [Ends(Returned(e.result.value)), Answers(ReturnResponse(e.result.value))])
            && (Advancing(s, e) && e.result.StepRaised? && e.result.error.CancelledError? ==>
                  reports == [Ends(Cancelled(e.result.error.message)), Answers(InternalError())])
            && (Advancing(s, e) && e.result.StepRaised? && !e.result.error.CancelledError? ==>
                  reports == [Ends(Raised(e.result.error)), Answers(InternalError())])
            && (Advancing(s, e) && (e.result.StepYieldedNone? || e.result.StepYielded?) && GoesOn(e) ==> reports == [])
            && (Advancing(s, e) && (e.result.StepYieldedNone? || e.result.StepYielded?) && !GoesOn(e) ==>
                  reports == [Closes, Ends(Aborted), Answers(InternalError())])
            && (o.state.finished <==> reports != [])
  {
    hide Reports, Begin, Settle, Conclude, Rep, RunOps, InternalError, ReturnResponse, Abandon;
    BeginReports(s, e);
    BeginAdvances(s, e);
    BeginKeepsRep(s, e);
    var p := Begin(s, e);
    if p.Advance? {
      AdvancedReports(s, e);
    } else {
      ConcludeIs(p, e.closeOps);
      if p.Abort? {
        StillStarted(s, e);
        AbandonReports(p.state, e.closeOps);
        ReportsAppend(p.effects, Abandon(p.state, e.closeOps).effects);
      }
    }
  }

  lemma {:induction false} ConcludeIs(p: Phase, ops: seq<Op>)
    requires !p.Advance?
    ensures Conclude(p, ops) == if p.Stop? then Outcome(p.state, p.effects) else Prefix(p.effects, Abandon(p.state, ops))
  {
  }

  lemma {:induction false} StillStarted(s: TaskState, e: TurnEnv)
    requires Rep(s) && !s.finished && Begin(s, e).Abort?
    ensures Begin(s, e).state.coroutine.Some? && !Begin(s, e).state.finished
  {
    hide Finish, InternalError, PendingThrow;
  }

  lemma {:induction false} AdvancedReports(s: TaskState, e: TurnEnv)
    requires Rep(s) && !s.finished && Begin(s, e).Advance?
    ensures var p := Begin(s, e);
            var ran := RunOps(p.state, e.stepOps);
            var settled := Conclude(Settle(ran.state, e), e.closeOps);
            && MidTurn(ran.state) && ran.state.coroutine.Some?
            && Turn(s, e).state == settled.state && Reports(Turn(s, e).effects) == Reports(settled.effects)
    ensures var settled := Conclude(Settle(RunOps(Begin(s, e).state, e.stepOps).state, e), e.closeOps);
            && (e.result.StepReturned? ==>
                  settled.state.finished
                  && Reports(settled.effects) == [Ends(Returned(e.result.value)), Answers(ReturnResponse(e.result.value))])
            && (e.result.StepRaised? && e.result.error.CancelledError? ==>
                  settled.state.finished
                  && Reports(settled.effects) == [Ends(Cancelled(e.result.error.message)), Answers(InternalError())])
            && (e.result.StepRaised? && !e.result.error.CancelledError? ==>
                  settled.state.finished && Reports(settled.effects) == [Ends(Raised(e.result.error)), Answers(InternalError())])
            && (e.result.StepYieldedNone? || e.result.StepYielded? ==>
                  if GoesOn(e) then !settled.state.finished && Reports(settled.effects) == []
                  else settled.state.finished && Reports(settled.effects) == GIVEN_UP)
  {
    hide Reports, Begin, Settle, Conclude, Rep, RunOps, InternalError, ReturnResponse, Abandon;
    BeginReports(s, e);
    BeginKeepsRep(s, e);
    var p := Begin(s, e);
    OpsKeepRep(p.state, e.stepOps);
    OpsSilent(p.state, e.stepOps);
    var ran := RunOps(p.state, e.stepOps);
    SettleReports(ran.state, e);
    var settled := Conclude(Settle(ran.state, e), e.closeOps);
    var advance := if p.pending.Some? then Throw(p.pending.value) else Send;
    Sandwich(p.effects, advance, ran.effects, settled.effects);
  }

  lemma {:induction false} Sandwich(before: seq<Effect>, advance: Effect, ran: seq<Effect>, settled: seq<Effect>)
    requires Reports(before) == [] && (advance.Send? || advance.Throw?) && Reports(ran) == []
    ensures Reports(before + [advance] + ran + settled + [ExitContext, LeaveTask]) == Reports(settled)
  {
    hide Reports;
    ReportsOne(advance);
    SilentReports([ExitContext, LeaveTask]);
    ReportsAppend(before, [advance]);
    ReportsAppend(before + [advance], ran);
    ReportsAppend(before + [advance] + ran, settled);
    ReportsAppend(before + [advance] + ran + settled, [ExitContext, LeaveTask]);
  }

  // ----- How a turn leaves a task that goes on

  lemma {:induction false} SettleLeaves(s: TaskState, e: TurnEnv)
    requires MidTurn(s) && GoesOn(e)
    ensures var t := Conclude(Settle(s, e), e.closeOps).state;
            && (e.result.StepYieldedNone? ==> t == s)
            && (e.result.StepYielded? && !e.result.park.hasFlag ==> t == s.(deferredThrow := Some(ProtocolError(NotAFuture))))
            && (e.result.StepYielded? && e.result.park.hasFlag && !e.result.park.blocking ==>
                  t == s.(deferredThrow := Some(ProtocolError(YieldedWithoutAwait))))
            && (e.result.StepYielded? && e.result.park.hasFlag && e.result.park.blocking && e.result.park.foreignLoop ==>
                  t == s.(deferredThrow := Some(ProtocolError(ForeignLoop))))
            && (e.result.StepYielded? && !BadPark(e.result.park) ==>
                  t == s.(waitingOn := Some(e.result.future), mustCancel := s.mustCancel && !e.result.park.cancel.Absorbed?))
  {
    hide Finish, InternalError, ReturnResponse;
  }

  /** A turn that goes on, exactly: a bare yield leaves the task as its code left it; a bad
      yield leaves one error to be thrown, naming what is wrong; any other leaves it
      waiting on the future, with a cancellation that landed meanwhile still owed unless
      that future absorbed it. The flag and message the turn found are spent. */
  lemma {:induction false} TurnLeavesExactly(s: TaskState, e: TurnEnv)
    requires Rep(s) && !s.finished && Advancing(s, e) && GoesOn(e)
    ensures var t := Turn(s, e).state;
            var ran := RunOps(Entered(s, e), e.stepOps).state;
            && (e.result.StepYieldedNone? ==> t == ran)
            && (e.result.StepYielded? && !e.result.park.hasFlag ==> t == ran.(deferredThrow := Some(ProtocolError(NotAFuture))))
            && (e.result.StepYielded? && e.result.park.hasFlag && !e.result.park.blocking ==>
                  t == ran.(deferredThrow := Some(ProtocolError(YieldedWithoutAwait))))
            && (e.result.StepYielded? && e.result.park.hasFlag && e.result.park.blocking && e.result.park.foreignLoop ==>
                  t == ran.(deferredThrow := Some(ProtocolError(ForeignLoop))))
            && (e.result.StepYielded? && !BadPark(e.result.park) ==>
                  t == ran.(waitingOn := Some(e.result.future), mustCancel := ran.mustCancel && !e.result.park.cancel.Absorbed?))
  {
    hide Begin, Settle, Conclude, Rep, RunOps;
    BeginAdvances(s, e);
    BeginEnters(s, e);
    AdvancedReports(s, e);
    SettleLeaves(RunOps(Begin(s, e).state, e.stepOps).state, e);
  }

  /** The task as its coroutine finds it: everything the turn took is gone, and a first
      turn has a coroutine, a context, and perhaps a registration. */
  function Entered(s: TaskState, e: TurnEnv): TaskState {
    var taken := s.(waitingOn := None, deferredThrow := None, mustCancel := false, cancelMessage := None);
    if s.coroutine.Some? || e.factory.FactoryRaised? then taken
    else taken.(coroutine := Some(e.factory.coroutine), context := Some(e.factory.context), registered := e.registerOk)
  }

  lemma {:induction false} BeginEnters(s: TaskState, e: TurnEnv)
    requires Rep(s) && !s.finished && Begin(s, e).Advance?
    ensures Begin(s, e).state == Entered(s, e)
  {
    hide Finish, InternalError, PendingThrow;
  }

  // ----- Where things happen

  /** Whether a task is current, and its context entered. */
  datatype Place = AtLoop | InTask | InContext

  /** Where a call leaves off; none if it does not belong where it is made. The handler is
      called outside, the coroutine advanced with the task current and the context entered,
      and the two are entered and left like brackets. */
  function Move(at: Place, e: Effect): Option<Place> {
    match e
    case CallHandler => if at.AtLoop? then Some(at) else None
    case EnterTask(ok) => if at.AtLoop? then Some(if ok then InTask else at) else None
    case EnterContext(ok) => if at.InTask? then Some(if ok then InContext else at) else None
    case Send => if at.InContext? then Some(at) else None
    case Throw(_) => if at.InContext? then Some(at) else None
    case ExitContext => if at.InContext? then Some(InTask) else None
    case LeaveTask => if at.InTask? then Some(AtLoop) else None
    case _ => Some(at)
  }

  function Walk(at: Place, effects: seq<Effect>): Option<Place>
    decreases |effects|
  {
    if effects == [] then Some(at)
    else
      var next := Move(at, effects[0]);
      if next.None? then None else Walk(next.value, effects[1..])
  }

  lemma {:induction false} WalkAppend(at: Place, a: seq<Effect>, b: seq<Effect>)
    ensures Walk(at, a).Some? ==> Walk(at, a + b) == Walk(Walk(at, a).value, b)
    decreases |a|
  {
    hide Move;
    if a == [] {
      assert a + b == b;
    } else if Move(at, a[0]).Some? {
      assert (a + b)[1..] == a[1..] + b;
      WalkAppend(Move(at, a[0]).value, a[1..], b);
    }
  }

  lemma {:induction false} WalkOne(at: Place, e: Effect)
    ensures Walk(at, [e]) == Move(at, e)
  {
    hide Move;
    assert [e][1..] == [];
  }

  lemma {:induction false} QuietWalk(at: Place, effects: seq<Effect>)
    requires AllQuiet(effects)
    ensures Walk(at, effects) == Some(at)
    decreases |effects|
  {
    if effects != [] { QuietWalk(at, effects[1..]); }
  }

  lemma {:induction false} EnterWalk(s: TaskState, e: TurnEnv, pending: Option<Exc>)
    ensures var p := Enter(s, e, pending); Walk(AtLoop, p.effects) == Some(if p.Advance? then InContext else AtLoop)
  {
    hide Walk;
    QuietWalk(AtLoop, []);
    WalkOne(AtLoop, EnterTask(e.enterOk));
    WalkOne(InTask, EnterContext(e.contextEntered));
    WalkOne(InTask, LeaveTask);
    WalkAppend(AtLoop, [EnterTask(true)], [EnterContext(e.contextEntered)]);
    WalkAppend(AtLoop, [EnterTask(true), EnterContext(false)], [LeaveTask]);
    assert [EnterTask(true)] + [EnterContext(e.contextEntered)] == [EnterTask(true), EnterContext(e.contextEntered)];
    assert [EnterTask(true), EnterContext(false)] + [LeaveTask] == [EnterTask(true), EnterContext(false), LeaveTask];
  }

  /** `start` happens outside. */
  lemma {:induction false} HandlerWalk(quiet: seq<Effect>, rest: seq<Effect>)
    requires AllQuiet(quiet)
    ensures Walk(AtLoop, [CallHandler] + quiet + rest) == Walk(AtLoop, rest)
  {
    hide Walk;
    WalkOne(AtLoop, CallHandler);
    QuietWalk(AtLoop, quiet);
    WalkAppend(AtLoop, [CallHandler], quiet);
    WalkAppend(AtLoop, [CallHandler] + quiet, rest);
  }

  lemma {:induction false} StartWalk(s: TaskState, e: TurnEnv, pending: Option<Exc>)
    ensures var p := Start(s, e, pending); Walk(AtLoop, p.effects) == Some(if p.Advance? then InContext else AtLoop)
  {
    hide Walk, Finish, InternalError, Enter, AllQuiet;
    if e.factory.FactoryRaised? {
      var end := Finish(s, InternalError(), Raised(e.factory.error));
      FinishQuiet(s, InternalError(), Raised(e.factory.error));
      QuietWalk(AtLoop, end.effects);
      NoneQuiet();
      HandlerWalk([], end.effects);
      assert [CallHandler] + [] == [CallHandler];
    } else if !e.contextCopied {
      var end := Finish(s, InternalError(), Aborted);
      FinishQuiet(s, InternalError(), Aborted);
      QuietWalk(AtLoop, end.effects);
      NoneQuiet();
      HandlerWalk([CopyContext(false), DiscardCoroutine], end.effects);
      assert [CallHandler] + [CopyContext(false), DiscardCoroutine] == [CallHandler, CopyContext(false), DiscardCoroutine];
    } else {
      var built := s.(coroutine := Some(e.factory.coroutine), context := Some(e.factory.context), registered := s.registered || e.registerOk);
      EnterWalk(built, e, pending);
      BuiltQuiet(e.registerOk);
      HandlerWalk([CopyContext(true), RegisterTask(e.registerOk)], Enter(built, e, pending).effects);
      assert [CallHandler] + [CopyContext(true), RegisterTask(e.registerOk)] == [CallHandler, CopyContext(true), RegisterTask(e.registerOk)];
    }
  }

  lemma {:induction false} NoneQuiet()
    ensures AllQuiet([]) && AllQuiet([CopyContext(false), DiscardCoroutine])
  {
  }

  lemma {:induction false} BuiltQuiet(ok: bool)
    ensures AllQuiet([CopyContext(true), RegisterTask(ok)])
  {
  }

  lemma {:induction false} BeginWalk(s: TaskState, e: TurnEnv)
    ensures var p := Begin(s, e); Walk(AtLoop, p.effects) == Some(if p.Advance? then InContext else AtLoop)
  {
    hide Walk, Finish, InternalError, Enter, Start, PendingThrow, AllQuiet;
    var pending := PendingThrow(s.deferredThrow, e.wake, s.mustCancel, s.cancelMessage);
    NoneQuiet();
    QuietWalk(AtLoop, []);
    if !s.finished {
      EnterWalk(Claimed(s), e, pending);
      StartWalk(Claimed(s), e, pending);
      var end := Finish(Claimed(s), InternalError(), Cancelled(s.cancelMessage));
      FinishQuiet(Claimed(s), InternalError(), Cancelled(s.cancelMessage));
      QuietWalk(AtLoop, end.effects);
    }
  }

  lemma {:induction false} TurnWalk(s: TaskState, e: TurnEnv)
    ensures Walk(AtLoop, Turn(s, e).effects) == Some(AtLoop)
  {
    BeginWalk(s, e);
    hide Walk, Begin, AllQuiet, Settle, Abandon, RunOps, Turn;
    var p := Begin(s, e);
    if p.Advance? {
      TurnShape(s, e);
      var advance := if p.pending.Some? then Throw(p.pending.value) else Send;
      var middle :| AllQuiet(middle) && Turn(s, e).effects == p.effects + [advance] + middle + [ExitContext, LeaveTask];
      AdvanceWalk(p.effects, advance, middle);
    } else {
      StuckTurn(s, e);
      ConcludeIs(p, e.closeOps);
      if p.Abort? {
        var end := Abandon(p.state, e.closeOps);
        AbandonQuiet(p.state, e.closeOps);
        QuietWalk(AtLoop, end.effects);
        WalkAppend(AtLoop, p.effects, end.effects);
      }
    }
  }

  lemma {:induction false} StuckTurn(s: TaskState, e: TurnEnv)
    requires !Begin(s, e).Advance?
    ensures Turn(s, e) == Conclude(Begin(s, e), e.closeOps)
  {
    hide Begin, Conclude;
  }

  lemma {:induction false} AdvanceWalk(before: seq<Effect>, advance: Effect, middle: seq<Effect>)
    requires Walk(AtLoop, before) == Some(InContext) && (advance.Send? || advance.Throw?) && AllQuiet(middle)
    ensures Walk(AtLoop, before + [advance] + middle + [ExitContext, LeaveTask]) == Some(AtLoop)
  {
    hide Walk, AllQuiet;
    WalkOne(InContext, advance);
    QuietWalk(InContext, middle);
    WalkOne(InContext, ExitContext);
    WalkOne(InTask, LeaveTask);
    WalkAppend(InContext, [ExitContext], [LeaveTask]);
    assert [ExitContext] + [LeaveTask] == [ExitContext, LeaveTask];
    WalkAppend(AtLoop, before, [advance]);
    WalkAppend(AtLoop, before + [advance], middle);
    WalkAppend(AtLoop, before + [advance] + middle, [ExitContext, LeaveTask]);
  }

  /** Over every run of a task: the handler is called outside, the coroutine is advanced only
      with the task current and its context entered, the context is left before the task, and
      after every event both have been left. */
  lemma {:induction false} EverythingInItsPlace(s: TaskState, events: seq<Event>)
    ensures Walk(AtLoop, Run(s, events).effects) == Some(AtLoop)
    decreases |events|
  {
    hide Walk, Turn, OpOutcome, Abandon, AllQuiet;
    if events == [] {
      NoneQuiet();
      QuietWalk(AtLoop, []);
    } else {
      var first := Step(s, events[0]);
      match events[0] {
        case TurnEvent(e) => TurnWalk(s, e);
        case OpEvent(op) =>
          OneOpQuiet(s, op);
          QuietWalk(AtLoop, first.effects);
        case DisposeEvent(ops) =>
          AbandonQuiet(s, ops);
          QuietWalk(AtLoop, first.effects);
      }
      EverythingInItsPlace(first.state, events[1..]);
      WalkAppend(AtLoop, first.effects, Run(first.state, events[1..]).effects);
    }
  }

  lemma {:induction false} OneOpQuiet(s: TaskState, op: Op)
    ensures AllQuiet(OpOutcome(s, op).effects)
  {
    hide Drops, Without, Gone;
    if op.RemoveCallback? { DropsQuiet(Gone(s.doneCallbacks, op.equal)); }
  }
}
