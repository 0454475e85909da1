/** Cancellation of a task: what is asked is counted, and what is owed is thrown. */
module TaskCancellation {
  import opened Wrappers
  import opened Responses
  import opened TaskMachine
  import opened TaskProperties
  import opened TaskPieces

  // ----- A cancellation that is owed is delivered

  /** The coroutine is advanced once, by a thrown `CancelledError`. */
  predicate ThrowsCancellation(effects: seq<Effect>) {
    var advances := Advances(effects);
    |advances| == 1 && advances[0].Throw? && advances[0].error.CancelledError?
  }

  /** With a cancellation owed, the next turn either ends an unstarted task without
      calling its handler, or throws a `CancelledError` (never a plain send, never a
      deferred protocol error), or never gets to advance and finishes the task. */
  lemma {:induction false} NextTurnDelivers(s: TaskState, e: TurnEnv)
    requires Rep(s) && s.mustCancel && !s.finished
    ensures var o := Turn(s, e);
            if s.coroutine.None? then
              && o.state.finished && o.state.finishedCancelled && o.state.cancelledMessage == s.cancelMessage
              && CallHandler !in o.effects && Advances(o.effects) == []
            else
              || (o.state.finished && Advances(o.effects) == [])
              || ThrowsCancellation(o.effects)
  {
    if s.coroutine.None? {
      UnstartedCancelled(s, e);
    } else {
      StartedCancelled(s, e);
    }
  }

  lemma {:induction false} UnstartedCancelled(s: TaskState, e: TurnEnv)
    requires Rep(s) && s.mustCancel && !s.finished && s.coroutine.None?
    ensures var o := Turn(s, e);
            && o.state.finished && o.state.finishedCancelled && o.state.cancelledMessage == s.cancelMessage
            && CallHandler !in o.effects && Advances(o.effects) == []
  {
    hide FinishProgram, InternalError, AllQuiet, Advances, Rep;
    FinishQuiet(Claimed(s), InternalError(), Cancelled(s.cancelMessage));
    QuietCounts(Turn(s, e).effects);
  }

  lemma {:induction false} StartedCancelled(s: TaskState, e: TurnEnv)
    requires Rep(s) && s.mustCancel && !s.finished && s.coroutine.Some?
    ensures var o := Turn(s, e);
            (o.state.finished && Advances(o.effects) == []) || ThrowsCancellation(o.effects)
  {
    hide Turn, Advances, Rep;
    PendingIsThrown(s, e);
  }

  /** A started task whose turn comes with a `CancelledError` to throw throws it, or
      never gets to advance and finishes. */
  lemma {:induction false} PendingIsThrown(s: TaskState, e: TurnEnv)
    requires Rep(s) && !s.finished && s.coroutine.Some?
    requires var pending := PendingThrow(s.deferredThrow, e.wake, s.mustCancel, s.cancelMessage);
             pending.Some? && pending.value.CancelledError?
    ensures var o := Turn(s, e);
            (o.state.finished && Advances(o.effects) == []) || ThrowsCancellation(o.effects)
  {
    var p := Begin(s, e);
    BeginKeepsRep(s, e);
    BeginCounts(s, e);
    assert p.Advance? ==> p.pending == PendingThrow(s.deferredThrow, e.wake, s.mustCancel, s.cancelMessage);
    hide Begin, Rep, Advances, Abandon, Settle, RunOps, AllQuiet;
    if p.Advance? {
      OnlyAdvance(s, e);
    } else {
      AbandonKeepsRep(p.state, e.closeOps);
      AbandonQuiet(p.state, e.closeOps);
      QuietCounts(Abandon(p.state, e.closeOps).effects);
      CountsAppend(p.effects, Abandon(p.state, e.closeOps).effects);
    }
  }

  /** The one advance of a turn is the pending throw, or a send when none is. */
  lemma {:induction false} OnlyAdvance(s: TaskState, e: TurnEnv)
    requires Begin(s, e).Advance?
    ensures var p := Begin(s, e);
            Advances(Turn(s, e).effects) == [if p.pending.Some? then Throw(p.pending.value) else Send]
  {
    hide Begin, Turn, AllQuiet, Advances, TaskDepth, ContextDepth;
    TurnShape(s, e);
    BeginCounts(s, e);
    var p, effects := Begin(s, e), Turn(s, e).effects;
    var advance := if p.pending.Some? then Throw(p.pending.value) else Send;
    var middle :| AllQuiet(middle) && effects == p.effects + [advance] + middle + [ExitContext, LeaveTask];
    OneAdvance(p.effects, advance, middle);
  }

  lemma {:induction false} OneAdvance(before: seq<Effect>, advance: Effect, middle: seq<Effect>)
    requires Advances(before) == [] && AllQuiet(middle) && (advance.Send? || advance.Throw?)
    ensures Advances(before + [advance] + middle + [ExitContext, LeaveTask]) == [advance]
  {
    hide AllQuiet, Advances, TaskDepth, ContextDepth;
    QuietCounts(middle);
    CountsAppend(before, [advance]);
    CountsAppend(before + [advance], middle);
    CountsAppend(before + [advance] + middle, [ExitContext, LeaveTask]);
    SmallCounts(advance);
  }

  /** Some `uncancel` among the calls brings the counter to zero. */
  predicate ReachesZero(s: TaskState, ops: seq<Op>)
    decreases |ops|
  {
    ops != [] && ((ops[0].Uncancel? && s.cancelRequests <= 1) || ReachesZero(OpOutcome(s, ops[0]).state, ops[1..]))
  }

  /** What is owed stays owed through any calls, until an `uncancel` reaches zero. */
  lemma {:induction false} OwedUntilZero(s: TaskState, ops: seq<Op>)
    requires s.mustCancel && !s.finished && !ReachesZero(s, ops)
    ensures RunOps(s, ops).state.mustCancel && !RunOps(s, ops).state.finished
    decreases |ops|
  {
    hide Drops, Without;
    if ops != [] {
      OwedUntilZero(OpOutcome(s, ops[0]).state, ops[1..]);
    }
  }

  /** Across any calls in between, then, the next turn delivers. */
  lemma {:induction false} OwedIsDelivered(s: TaskState, ops: seq<Op>, e: TurnEnv)
    requires Rep(s) && s.mustCancel && !s.finished && !ReachesZero(s, ops)
    ensures var t := RunOps(s, ops).state;
            var o := Turn(t, e);
            if s.coroutine.None? then
              o.state.finished && o.state.finishedCancelled && CallHandler !in o.effects
            else
              || (o.state.finished && Advances(o.effects) == [])
              || ThrowsCancellation(o.effects)
  {
    hide RunOps, ReachesZero, Rep, Turn, Advances;
    OwedUntilZero(s, ops);
    OpsKeepRep(s, ops);
    NextTurnDelivers(RunOps(s, ops).state, e);
  }

  /** The future just parked on took the cancellation over. */
  predicate AbsorbedByPark(e: TurnEnv, o: Outcome) {
    && e.result.StepYielded? && e.result.park.cancel.Absorbed?
    && o.state.waitingOn == Some(e.result.future)
    && CancelFuture(e.result.future, Absorbed) in o.effects
  }

  /** A cancellation that lands while the coroutine runs is not lost either: when
      the turn ends the task is finished, still owes it, or has handed it to the
      future it parked on. */
  lemma {:induction false} MidStepCancelKept(s: TaskState, e: TurnEnv)
    requires Rep(s) && Begin(s, e).Advance? && RunOps(Begin(s, e).state, e.stepOps).state.mustCancel
    ensures var o := Turn(s, e);
            o.state.finished || o.state.mustCancel || AbsorbedByPark(e, o)
  {
    hide Begin, RunOps, Rep, Settle, Abandon;
    var p := Begin(s, e);
    BeginKeepsRep(s, e);
    OpsKeepRep(p.state, e.stepOps);
    var ran := RunOps(p.state, e.stepOps);
    SettleKeepsCancel(ran.state, e);
    var settled := Settle(ran.state, e);
    AbandonKeepsRep(settled.state, e.closeOps);
    if settled.Stop? && !settled.state.finished && !settled.state.mustCancel {
      var call := CancelFuture(e.result.future, Absorbed);
      assert call in settled.effects;
      assert Turn(s, e).effects == p.effects
        + [if p.pending.Some? then Throw(p.pending.value) else Send] + ran.effects + settled.effects + [ExitContext, LeaveTask];
    }
  }

  lemma {:induction false} SettleKeepsCancel(s: TaskState, e: TurnEnv)
    requires MidTurn(s) && s.coroutine.Some? && s.mustCancel
    ensures var p := Settle(s, e);
            && !p.Advance? && Rep(p.state)
            && (p.Stop? && !p.state.finished && !p.state.mustCancel ==>
                  && e.result.StepYielded? && e.result.park.cancel.Absorbed?
                  && p.state.waitingOn == Some(e.result.future)
                  && CancelFuture(e.result.future, Absorbed) in p.effects)
  {
    hide Rep, Finish, InternalError, ReturnResponse, Park;
    SettleKeepsRep(s, e);
    match e.result {
      case StepReturned(value) => FinishKeepsRep(s, ReturnResponse(value), Returned(value));
      case StepRaised(error) =>
        FinishKeepsRep(s, InternalError(), if error.CancelledError? then Cancelled(error.message) else Raised(error));
      case StepYieldedNone =>
      case StepYielded(future, park) => ParkKeepsCancel(s, e, future, park);
    }
  }

  lemma {:induction false} ParkKeepsCancel(s: TaskState, e: TurnEnv, future: Ref, park: ParkReplies)
    requires s.mustCancel
    ensures var p := Park(s, e, future, park);
            p.Stop? && !p.state.mustCancel ==>
              park.cancel.Absorbed? && p.state.waitingOn == Some(future) && CancelFuture(future, Absorbed) in p.effects
  {
    hide Misuse;
    var p := Park(s, e, future, park);
    if p.Stop? && !p.state.mustCancel {
      assert p.effects[2] == CancelFuture(future, Absorbed);
    }
  }

  /** What a `cancel` does, exactly: nothing to a finished task; otherwise it is counted,
      its message is the one to be thrown, the awaited future is asked, if there is one, and
      a cancellation is owed unless that future absorbed this one and none was before. */
  lemma {:induction false} CancelExactly(s: TaskState, message: Option<Ref>, reply: CancelReply)
    ensures var o := OpOutcome(s, Cancel(message, reply));
            && (s.finished ==> o == Outcome(s, []))
            && (!s.finished ==>
                  && o.state.cancelRequests == (s.cancelRequests + 1) % U32 && o.state.cancelMessage == message
                  && (o.state.mustCancel <==> s.mustCancel || s.waitingOn.None? || reply != Absorbed)
                  && o.state == s.(cancelRequests := o.state.cancelRequests, cancelMessage := message, mustCancel := o.state.mustCancel)
                  && (forall f: Ref, r: CancelReply :: CancelFuture(f, r) in o.effects <==> s.waitingOn == Some(f) && r == reply))
  {
  }

  // ----- The cancel counter

  /** The counter as the history of calls says: up on `cancel`, down to no less than
      zero on `uncancel`. */
  function Balance(start: nat, effects: seq<Effect>): nat
    decreases |effects|
  {
    if effects == [] then start
    else if effects[0].CancelAsked? then Balance(start + 1, effects[1..])
    else if effects[0].UncancelAsked? then Balance(if start > 0 then start - 1 else 0, effects[1..])
    else Balance(start, effects[1..])
  }

  /** The counter never passes what a `u32` holds along the way. */
  predicate Fits(start: nat, effects: seq<Effect>)
    decreases |effects|
  {
    && start < U32
    && (effects != [] ==>
          if effects[0].CancelAsked? then Fits(start + 1, effects[1..])
          else if effects[0].UncancelAsked? then Fits(if start > 0 then start - 1 else 0, effects[1..])
          else Fits(start, effects[1..]))
  }

  lemma {:induction false} BalanceAppend(start: nat, a: seq<Effect>, b: seq<Effect>)
    ensures Balance(start, a + b) == Balance(Balance(start, a), b)
    ensures Fits(start, a + b) <==> Fits(start, a) && Fits(Balance(start, a), b)
    decreases |a|
  {
    if a == [] {
      assert a + b == b;
    } else {
      assert (a + b)[1..] == a[1..] + b;
      var next := if a[0].CancelAsked? then start + 1 else if a[0].UncancelAsked? && start > 0 then start - 1 else start;
      BalanceAppend(next, a[1..], b);
    }
  }

  predicate Uncounted(effects: seq<Effect>) {
    forall i :: 0 <= i < |effects| ==> !effects[i].CancelAsked? && !effects[i].UncancelAsked?
  }

  lemma {:induction false} UncountedBalance(start: nat, effects: seq<Effect>)
    requires Uncounted(effects) && start < U32
    ensures Balance(start, effects) == start && Fits(start, effects)
    decreases |effects|
  {
    if effects != [] {
      UncountedBalance(start, effects[1..]);
    }
  }

  /** The counter agrees with the history, and a cancellation owed is a
      cancellation counted. */
  predicate Counted(start: nat, o: Outcome) {
    Fits(start, o.effects) ==>
      o.state.cancelRequests == Balance(start, o.effects) && (o.state.mustCancel ==> o.state.cancelRequests > 0)
  }

  predicate Flagged(s: TaskState) {
    s.cancelRequests < U32 && (s.mustCancel ==> s.cancelRequests > 0)
  }

  lemma {:induction false} DropsUncounted(callbacks: seq<Callback>)
    ensures Uncounted(Drops(callbacks))
  {
    if callbacks != [] {
      DropsUncounted(callbacks[1..]);
    }
  }

  lemma {:induction false} FiresUncounted(callbacks: seq<Callback>)
    ensures Uncounted(Fires(callbacks))
  {
    if callbacks != [] {
      FiresUncounted(callbacks[1..]);
    }
  }

  lemma {:induction false} OpCounted(s: TaskState, op: Op)
    requires Flagged(s)
    ensures Counted(s.cancelRequests, OpOutcome(s, op))
  {
    hide Drops, Without;
    var effects := OpOutcome(s, op).effects;
    match op {
      case Cancel(_, reply) =>
        if !s.finished {
          if s.cancelRequests + 1 < U32 {
            UncountedBalance(s.cancelRequests + 1, effects[1..]);
          } else {
            assert !Fits(s.cancelRequests + 1, effects[1..]);
          }
        }
      case Uncancel =>
        assert effects[1..] == [];
      case AddCallback(_, _) =>
        UncountedBalance(s.cancelRequests, effects);
      case RemoveCallback(equal) =>
        DropsUncounted(Gone(s.doneCallbacks, equal));
        UncountedBalance(s.cancelRequests, effects);
    }
  }

  lemma {:induction false} FitsEnd(start: nat, effects: seq<Effect>)
    requires Fits(start, effects)
    ensures Balance(start, effects) < U32
    decreases |effects|
  {
    if effects != [] {
      var next := if effects[0].CancelAsked? then start + 1
                  else if effects[0].UncancelAsked? && start > 0 then start - 1 else start;
      FitsEnd(next, effects[1..]);
    }
  }

  lemma {:induction false} PieceCounted(s: TaskState, piece: Piece)
    requires Flagged(s) && Allowed(s, piece)
    ensures Counted(s.cancelRequests, Play(s, piece))
  {
    hide OpOutcome, Uncounted, Finish, Balance, Fits, ResponseFor;
    match piece {
      case OpPiece(op) => OpCounted(s, op);
      case FinishPiece(response, completion) =>
        FinishUncounted(s, response, completion);
        FinishOwes(s, response, completion);
        UncountedBalance(s.cancelRequests, Play(s, piece).effects);
      case PlainPiece(o) =>
        NeutralUncounted(o.effects);
        UncountedBalance(s.cancelRequests, o.effects);
    }
  }

  lemma {:induction false} NeutralUncounted(effects: seq<Effect>)
    requires AllNeutral(effects)
    ensures Uncounted(effects)
  {
  }

  lemma {:induction false} FinishUncounted(s: TaskState, response: HandlerResponse, completion: Completion)
    ensures Uncounted(Finish(s, response, completion).effects)
  {
    FiresUncounted(s.doneCallbacks);
  }

  lemma {:induction false} PiecesCounted(s: TaskState, pieces: seq<Piece>)
    requires Flagged(s) && AllAllowed(s, pieces)
    ensures Counted(s.cancelRequests, PlayAll(s, pieces))
    decreases |pieces|
  {
    hide Play, Fits, Balance, Allowed;
    if pieces == [] {
      UncountedBalance(s.cancelRequests, []);
    } else {
      var first := Play(s, pieces[0]);
      PieceCounted(s, pieces[0]);
      var rest := PlayAll(first.state, pieces[1..]);
      BalanceAppend(s.cancelRequests, first.effects, rest.effects);
      if Fits(s.cancelRequests, first.effects) {
        FitsEnd(s.cancelRequests, first.effects);
        PiecesCounted(first.state, pieces[1..]);
      }
    }
  }

  /** Over every run of a task in which the counter fits its type: `cancelling()` is
      what the history of calls says, and `must_cancel` is set only while some
      request is counted. */
  lemma {:induction false} CancelBookkeeping(events: seq<Event>)
    ensures var o := Run(FRESH, events);
            Fits(0, o.effects) ==>
              && o.state.cancelRequests == Balance(0, o.effects)
              && (o.state.mustCancel ==> o.state.cancelRequests > 0)
  {
    var pieces := RunPieces(FRESH, events);
    PiecesCounted(FRESH, pieces);
  }

  /** `uncancel` as a guard would write it: clear the flag only on a real decrement
      to zero. */
  function GuardedUncancel(s: TaskState): TaskState {
    if s.cancelRequests == 0 then s
    else if s.cancelRequests == 1 then s.(cancelRequests := 0, mustCancel := false)
    else s.(cancelRequests := s.cancelRequests - 1)
  }

  /** The saturating form is the guarded form exactly when no flag is set without a
      count, which every run that fits keeps. */
  lemma {:induction false} SaturatingIsGuarded(s: TaskState, events: seq<Event>)
    ensures Uncancelled(s) == GuardedUncancel(s) <==> (s.mustCancel ==> s.cancelRequests > 0)
    ensures var t := Run(FRESH, events);
            Fits(0, t.effects) ==> Uncancelled(t.state) == GuardedUncancel(t.state)
  {
    hide Run, Fits;
    CancelBookkeeping(events);
  }

  function Cancels(n: nat): seq<Op> {
    if n == 0 then [] else [Cancel(None, Declined)] + Cancels(n - 1)
  }

  lemma {:induction false} ManyCancels(s: TaskState, n: nat)
    requires !s.finished && s.cancelRequests < U32 && s.waitingOn.None?
    ensures var t := RunOps(s, Cancels(n)).state;
            && t.cancelRequests == (s.cancelRequests + n) % U32
            && (n > 0 ==> t.mustCancel) && !t.finished
    decreases n
  {
    if n > 0 {
      var ops := Cancels(n);
      var t := OpOutcome(s, ops[0]).state;
      assert ops[1..] == Cancels(n - 1);
      ManyCancels(t, n - 1);
      assert RunOps(s, ops).state == RunOps(t, ops[1..]).state;
      WrapAdd(s.cancelRequests + 1, n - 1);
    }
  }

  lemma {:induction false} WrapAdd(a: nat, b: nat)
    ensures (a % U32 + b) % U32 == (a + b) % U32
  {
  }

  /** Where the counter does wrap the bookkeeping fails: after 2^32 requests a
      cancellation is owed with none counted. */
  lemma {:induction false} WrappedCounterLosesCount()
    ensures var t := RunOps(FRESH, Cancels(U32)).state;
            t.mustCancel && t.cancelRequests == 0 && Uncancelled(t) != GuardedUncancel(t)
  {
    ManyCancels(FRESH, U32);
  }

  // ----- Exactly when the count goes wrong

  /** The call takes the counter over the edge of a `u32`. */
  predicate Wraps(s: TaskState, piece: Piece) {
    piece.OpPiece? && piece.op.Cancel? && !s.finished && s.cancelRequests == U32 - 1
  }

  /** It does so and leaves a cancellation owed: not absorbed, or owed already. */
  predicate WrapsOwing(s: TaskState, piece: Piece) {
    Wraps(s, piece) && (s.mustCancel || s.waitingOn.None? || !piece.op.reply.Absorbed?)
  }

  predicate OwedUncounted(s: TaskState) {
    s.mustCancel && s.cancelRequests == 0
  }

  lemma {:induction false} OpExact(s: TaskState, op: Op)
    requires s.cancelRequests < U32
    ensures var o := OpOutcome(s, op);
            && o.state.cancelRequests < U32
            && (Fits(s.cancelRequests, o.effects) <==> !Wraps(s, OpPiece(op)))
            && (o.state.cancelRequests == Balance(s.cancelRequests, o.effects) <==> !Wraps(s, OpPiece(op)))
  {
    hide Drops, Without;
    var effects := OpOutcome(s, op).effects;
    match op {
      case Cancel(_, _) =>
        if !s.finished {
          var n := s.cancelRequests + 1;
          if n < U32 {
            UncountedBalance(n, effects[1..]);
          } else {
            assert !Fits(n, effects[1..]);
            UncountedSum(n, effects[1..]);
          }
        }
      case Uncancel => assert effects[1..] == [];
      case AddCallback(_, _) => UncountedBalance(s.cancelRequests, effects);
      case RemoveCallback(equal) =>
        DropsUncounted(Gone(s.doneCallbacks, equal));
        UncountedBalance(s.cancelRequests, effects);
    }
  }

  lemma {:induction false} UncountedSum(start: nat, effects: seq<Effect>)
    requires Uncounted(effects)
    ensures Balance(start, effects) == start
    decreases |effects|
  {
    if effects != [] {
      UncountedSum(start, effects[1..]);
    }
  }

  lemma {:induction false} PieceExact(s: TaskState, piece: Piece)
    requires s.cancelRequests < U32 && Allowed(s, piece)
    ensures var o := Play(s, piece);
            && o.state.cancelRequests < U32
            && (Fits(s.cancelRequests, o.effects) <==> !Wraps(s, piece))
            && (o.state.cancelRequests == Balance(s.cancelRequests, o.effects) <==> !Wraps(s, piece))
  {
    hide OpOutcome, Uncounted, Fits, Balance, Finish, ResponseFor;
    match piece {
      case OpPiece(op) => OpExact(s, op);
      case FinishPiece(response, completion) =>
        FinishUncounted(s, response, completion);
        FinishOwes(s, response, completion);
        UncountedBalance(s.cancelRequests, Play(s, piece).effects);
      case PlainPiece(o) =>
        NeutralUncounted(o.effects);
        UncountedBalance(s.cancelRequests, o.effects);
    }
  }

  /** After `k` pieces the counter is what the history says. */
  predicate Right(s: TaskState, pieces: seq<Piece>, k: nat)
    requires k <= |pieces|
  {
    var o := PlayAll(s, pieces[..k]);
    o.state.cancelRequests == Balance(s.cancelRequests, o.effects)
  }

  predicate RightThroughout(s: TaskState, pieces: seq<Piece>) {
    forall k :: 0 <= k <= |pieces| ==> Right(s, pieces, k)
  }

  lemma {:induction false} PlayMore(s: TaskState, pieces: seq<Piece>, k: nat)
    requires k < |pieces|
    ensures var first := Play(s, pieces[0]);
            PlayAll(s, pieces[..k + 1]) == Prefix(first.effects, PlayAll(first.state, pieces[1..][..k]))
  {
    hide Play;
    assert pieces[..k + 1][0] == pieces[0] && pieces[..k + 1][1..] == pieces[1..][..k];
  }

  lemma {:induction false} RightShifts(s: TaskState, pieces: seq<Piece>, k: nat)
    requires k < |pieces| && Play(s, pieces[0]).state.cancelRequests == Balance(s.cancelRequests, Play(s, pieces[0]).effects)
    ensures Right(s, pieces, k + 1) <==> Right(Play(s, pieces[0]).state, pieces[1..], k)
  {
    hide Play, PlayAll, Balance, Fits;
    PlayMore(s, pieces, k);
    var first := Play(s, pieces[0]);
    BalanceAppend(s.cancelRequests, first.effects, PlayAll(first.state, pieces[1..][..k]).effects);
  }

  lemma {:induction false} RightAtStart(s: TaskState, pieces: seq<Piece>)
    ensures Right(s, pieces, 0)
    ensures pieces != [] ==>
              (Right(s, pieces, 1) <==>
               Play(s, pieces[0]).state.cancelRequests == Balance(s.cancelRequests, Play(s, pieces[0]).effects))
  {
    hide Play;
    assert pieces[..0] == [];
    if pieces != [] {
      var first := Play(s, pieces[0]);
      PlayMore(s, pieces, 0);
      assert pieces[1..][..0] == [] && first.effects + [] == first.effects;
      assert PlayAll(s, pieces[..1]) == first;
    }
  }

  /** Exactly when the count is right: over every history of a task, call by call, the
      counter is throughout what the history says if and only if it never passes what a
      `u32` holds. */
  lemma {:induction false} CounterRightExactly(s: TaskState, pieces: seq<Piece>)
    requires s.cancelRequests < U32 && AllAllowed(s, pieces)
    ensures RightThroughout(s, pieces) <==> Fits(s.cancelRequests, PlayAll(s, pieces).effects)
    decreases |pieces|
  {
    hide Play, Balance, Fits, Allowed, Right;
    RightAtStart(s, pieces);
    if pieces == [] {
      FitsNothing(s.cancelRequests);
    } else {
      var first, rest := Play(s, pieces[0]), pieces[1..];
      PieceExact(s, pieces[0]);
      BalanceAppend(s.cancelRequests, first.effects, PlayAll(first.state, rest).effects);
      if !Wraps(s, pieces[0]) {
        CounterRightExactly(first.state, rest);
        forall k | 0 <= k < |pieces| ensures Right(s, pieces, k + 1) <==> Right(first.state, rest, k) {
          RightShifts(s, pieces, k);
        }
        if RightThroughout(first.state, rest) {
          forall k | 0 <= k <= |pieces| ensures Right(s, pieces, k) {
            if k > 0 { assert Right(first.state, rest, k - 1); }
          }
        } else {
          var k :| 0 <= k <= |rest| && !Right(first.state, rest, k);
          assert !Right(s, pieces, k + 1);
        }
      } else {
        assert !Right(s, pieces, 1);
      }
    }
  }

  lemma {:induction false} FitsNothing(start: nat)
    ensures Fits(start, []) <==> start < U32
  {
  }

  function StateAfter(s: TaskState, pieces: seq<Piece>, k: nat): TaskState
    requires k <= |pieces|
  {
    PlayAll(s, pieces[..k]).state
  }

  lemma {:induction false} PieceOwes(s: TaskState, piece: Piece)
    requires s.cancelRequests < U32 && Allowed(s, piece) && !OwedUncounted(s)
    ensures Play(s, piece).state.cancelRequests < U32
    ensures OwedUncounted(Play(s, piece).state) <==> WrapsOwing(s, piece)
  {
    hide Drops, Without, Gone, FinishProgram, OpOutcome, Finish;
    match piece {
      case OpPiece(op) => OpOwes(s, op);
      case FinishPiece(response, completion) => FinishOwes(s, response, completion);
      case PlainPiece(_) =>
    }
  }

  lemma {:induction false} OpOwes(s: TaskState, op: Op)
    requires s.cancelRequests < U32 && !OwedUncounted(s)
    ensures OpOutcome(s, op).state.cancelRequests < U32
    ensures OwedUncounted(OpOutcome(s, op).state) <==> WrapsOwing(s, OpPiece(op))
  {
    hide Drops, Without, Gone;
  }

  lemma {:induction false} FinishOwes(s: TaskState, response: HandlerResponse, completion: Completion)
    ensures var t := Finish(s, response, completion).state;
            t.cancelRequests == s.cancelRequests && t.mustCancel == s.mustCancel
  {
    hide FinishProgram;
  }

  /** Some piece takes the count over the edge and leaves a cancellation owed. */
  predicate WrapsSomewhere(s: TaskState, pieces: seq<Piece>)
    decreases |pieces|
  {
    pieces != [] && (WrapsOwing(s, pieces[0]) || WrapsSomewhere(Play(s, pieces[0]).state, pieces[1..]))
  }

  ghost predicate OwesUncounted(s: TaskState, pieces: seq<Piece>) {
    exists k :: 0 <= k <= |pieces| && OwedUncounted(StateAfter(s, pieces, k))
  }

  lemma {:induction false} AfterMore(s: TaskState, pieces: seq<Piece>, k: nat)
    requires k < |pieces|
    ensures StateAfter(s, pieces, k + 1) == StateAfter(Play(s, pieces[0]).state, pieces[1..], k)
    ensures StateAfter(s, pieces, 0) == s
  {
    hide Play;
    PlayMore(s, pieces, k);
  }

  /** Exactly when a cancellation is owed with none counted: at some point of a history
      if and only if some `cancel` wraps the counter and is not absorbed, or finds the
      flag set already. */
  lemma {:induction false} OwedUncountedExactly(s: TaskState, pieces: seq<Piece>)
    requires s.cancelRequests < U32 && AllAllowed(s, pieces) && !OwedUncounted(s)
    ensures OwesUncounted(s, pieces) <==> WrapsSomewhere(s, pieces)
    decreases |pieces|
  {
    hide Play, Allowed, OwedUncounted, WrapsOwing, PlayAll;
    if pieces == [] {
      NothingPlayed(s, pieces);
    } else {
      var first, rest := Play(s, pieces[0]), pieces[1..];
      PieceOwes(s, pieces[0]);
      forall k | 0 <= k < |pieces| ensures StateAfter(s, pieces, k + 1) == StateAfter(first.state, rest, k) && StateAfter(s, pieces, 0) == s {
        AfterMore(s, pieces, k);
      }
      hide StateAfter;
      if WrapsOwing(s, pieces[0]) {
        NothingPlayed(first.state, rest);
        assert OwedUncounted(StateAfter(s, pieces, 1));
      } else {
        OwedUncountedExactly(first.state, rest);
        if OwesUncounted(s, pieces) {
          NothingPlayed(s, pieces);
          var k :| 0 <= k <= |pieces| && OwedUncounted(StateAfter(s, pieces, k));
          assert k > 0 && StateAfter(s, pieces, (k - 1) + 1) == StateAfter(first.state, rest, k - 1);
        }
        if OwesUncounted(first.state, rest) {
          var k :| 0 <= k <= |rest| && OwedUncounted(StateAfter(first.state, rest, k));
          assert OwedUncounted(StateAfter(s, pieces, k + 1));
        }
      }
    }
  }

  lemma {:induction false} NothingPlayed(s: TaskState, pieces: seq<Piece>)
    ensures StateAfter(s, pieces, 0) == s
  {
  }

  /** Both, for every run of a task. */
  lemma {:induction false} RunCountExactly(events: seq<Event>) returns (pieces: seq<Piece>)
    ensures Accounts(FRESH, pieces, Run(FRESH, events))
    ensures RightThroughout(FRESH, pieces) <==> Fits(0, Run(FRESH, events).effects)
    ensures OwesUncounted(FRESH, pieces) <==> WrapsSomewhere(FRESH, pieces)
  {
    hide Run, Fits, RightThroughout, OwesUncounted, WrapsSomewhere, PlayAll, AllAllowed;
    pieces := RunPieces(FRESH, events);
    CounterRightExactly(FRESH, pieces);
    OwedUncountedExactly(FRESH, pieces);
  }
}
