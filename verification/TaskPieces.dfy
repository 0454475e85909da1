/** Every event of a task is a sequence of small pieces: task-protocol calls, calls
    to `finish`, and stretches that touch neither. What the pieces keep, every run
    keeps. */
module TaskPieces {
  import opened Wrappers
  import opened JsonWriter
  import opened Responses
  import opened TaskMachine

  datatype Piece =
    | OpPiece(op: Op)
    | FinishPiece(response: HandlerResponse, completion: Completion)
    | PlainPiece(outcome: Outcome)

  function Play(s: TaskState, piece: Piece): Outcome {
    match piece
    case OpPiece(op) => OpOutcome(s, op)
    case FinishPiece(response, completion) => Finish(s, response, completion)
    case PlainPiece(outcome) => outcome
  }

  function PlayAll(s: TaskState, pieces: seq<Piece>): Outcome
    decreases |pieces|
  {
    if pieces == [] then Outcome(s, [])
    else
      var first := Play(s, pieces[0]);
      Prefix(first.effects, PlayAll(first.state, pieces[1..]))
  }

  /** Neither part of finishing nor a task-protocol call. */
  predicate Neutral(e: Effect) {
    && !e.CancelAsked? && !e.UncancelAsked? && !e.Accept? && !e.Drop?
    && !e.Fire? && !e.Respond? && !e.Ended? && !e.RemoveLive? && !e.UnregisterTask?
  }

  predicate AllNeutral(effects: seq<Effect>) {
    forall i :: 0 <= i < |effects| ==> Neutral(effects[i])
  }

  /** A stretch that neither finishes the task nor touches its callbacks, its cancel
      count or its outcome, sets no flag, and notes whether asyncio registered it. */
  predicate Plain(s: TaskState, o: Outcome) {
    && AllNeutral(o.effects)
    && (o.state.registered <==> s.registered || RegisterTask(true) in o.effects)
    && (RegisterTask(true) in o.effects ==> !s.finished)
    && o.state.doneCallbacks == s.doneCallbacks && o.state.cancelRequests == s.cancelRequests
    && o.state.finished == s.finished && (o.state.mustCancel ==> s.mustCancel)
    && o.state.finishedCancelled == s.finishedCancelled && o.state.cancelledMessage == s.cancelledMessage
    && o.state.storedResult == s.storedResult && o.state.storedException == s.storedException
  }

  /** The response that belongs to a completion: what a returned value becomes, and the
      opaque 500 for every other end. */
  function ResponseFor(completion: Completion): HandlerResponse {
    match completion
    case Returned(value) => ReturnResponse(value)
    case _ => InternalError()
  }

  /** A plain stretch is plain, and a finish answers with what its completion calls for. */
  predicate Allowed(s: TaskState, piece: Piece) {
    && (piece.PlainPiece? ==> Plain(s, piece.outcome))
    && (piece.FinishPiece? ==> piece.response == ResponseFor(piece.completion))
  }

  predicate AllAllowed(s: TaskState, pieces: seq<Piece>)
    decreases |pieces|
  {
    pieces != [] ==> Allowed(s, pieces[0]) && AllAllowed(Play(s, pieces[0]).state, pieces[1..])
  }

  lemma {:induction false} PlayOn(s: TaskState, pieces: seq<Piece>)
    ensures pieces == [] ==> PlayAll(s, pieces) == Outcome(s, [])
    ensures pieces != [] ==>
              var first := Play(s, pieces[0]);
              && PlayAll(s, pieces) == Prefix(first.effects, PlayAll(first.state, pieces[1..]))
              && (AllAllowed(s, pieces) ==> Allowed(s, pieces[0]) && AllAllowed(first.state, pieces[1..]))
  {
    hide Play, Allowed;
  }

  /** `pieces` account for `o`. */
  predicate Accounts(s: TaskState, pieces: seq<Piece>, o: Outcome) {
    AllAllowed(s, pieces) && PlayAll(s, pieces) == o
  }

  lemma {:induction false} Assoc<T>(a: seq<T>, b: seq<T>, c: seq<T>)
    ensures a + (b + c) == (a + b) + c
  {
  }

  lemma {:induction false} Append(s: TaskState, a: seq<Piece>, o: Outcome, b: seq<Piece>, o': Outcome)
    requires Accounts(s, a, o) && Accounts(o.state, b, o')
    ensures Accounts(s, a + b, Prefix(o.effects, o'))
    decreases |a|
  {
    hide Play, Allowed, Accounts, PlayAll, AllAllowed;
    Uncons(s, a, o);
    if a == [] {
      assert a + b == b;
      assert [] + o'.effects == o'.effects;
    } else {
      var first := Play(s, a[0]);
      var rest := PlayAll(first.state, a[1..]);
      Append(first.state, a[1..], rest, b, o');
      Cons(s, a[0], a[1..] + b, Prefix(rest.effects, o'));
      Assoc([a[0]], a[1..], b);
      assert [a[0]] + a[1..] == a;
      Assoc(first.effects, rest.effects, o'.effects);
    }
  }

  lemma {:induction false} Uncons(s: TaskState, a: seq<Piece>, o: Outcome)
    requires Accounts(s, a, o)
    ensures a == [] ==> o == Outcome(s, [])
    ensures a != [] ==>
              var first := Play(s, a[0]);
              var rest := PlayAll(first.state, a[1..]);
              Allowed(s, a[0]) && Accounts(first.state, a[1..], rest) && o == Prefix(first.effects, rest)
  {
  }

  lemma {:induction false} Cons(s: TaskState, piece: Piece, rest: seq<Piece>, o: Outcome)
    requires Allowed(s, piece) && Accounts(Play(s, piece).state, rest, o)
    ensures Accounts(s, [piece] + rest, Prefix(Play(s, piece).effects, o))
  {
  }

  lemma {:induction false} One(s: TaskState, piece: Piece) returns (pieces: seq<Piece>)
    requires Allowed(s, piece)
    ensures Accounts(s, pieces, Play(s, piece))
  {
    hide Play, Allowed;
    var o := Play(s, piece);
    assert Accounts(o.state, [], Outcome(o.state, []));
    Cons(s, piece, [], Outcome(o.state, []));
    pieces := [piece] + [];
    assert o.effects + [] == o.effects;
  }

  lemma {:induction false} OpsPieces(s: TaskState, ops: seq<Op>) returns (pieces: seq<Piece>)
    ensures Accounts(s, pieces, RunOps(s, ops))
    decreases |ops|
  {
    hide OpOutcome;
    if ops == [] {
      pieces := [];
    } else {
      var head := One(s, OpPiece(ops[0]));
      var tail := OpsPieces(OpOutcome(s, ops[0]).state, ops[1..]);
      Append(s, head, OpOutcome(s, ops[0]), tail, RunOps(OpOutcome(s, ops[0]).state, ops[1..]));
      pieces := head + tail;
    }
  }

  lemma {:induction false} PlainThen(s: TaskState, o: Outcome, rest: seq<Piece>, o': Outcome) returns (pieces: seq<Piece>)
    requires Plain(s, o) && Accounts(o.state, rest, o')
    ensures Accounts(s, pieces, Prefix(o.effects, o'))
  {
    hide Plain, Accounts;
    assert Allowed(s, PlainPiece(o));
    var head := One(s, PlainPiece(o));
    Append(s, head, o, rest, o');
    pieces := head + rest;
  }

  lemma {:induction false} AbandonPieces(s: TaskState, ops: seq<Op>) returns (pieces: seq<Piece>)
    ensures Accounts(s, pieces, Abandon(s, ops))
  {
    hide Finish, Accounts, RunOps, InternalError;
    if s.coroutine.None? {
      pieces := One(s, FinishPiece(InternalError(), Aborted));
    } else {
      var closed := RunOps(s, ops);
      var middle := OpsPieces(s, ops);
      var last := One(closed.state, FinishPiece(InternalError(), Aborted));
      var end := Finish(closed.state, InternalError(), Aborted);
      Append(s, middle, closed, last, end);
      pieces := PlainThen(s, Outcome(s, [CloseCoroutine]), middle + last, Prefix(closed.effects, end));
      assert [CloseCoroutine] + (closed.effects + end.effects) == ([CloseCoroutine] + closed.effects) + end.effects;
    }
  }

  /** The part of a turn up to a phase, as a plain stretch; `finish` follows when the
      phase stops there with a finished task. */
  lemma {:induction false} BeginPieces(s: TaskState, e: TurnEnv) returns (pieces: seq<Piece>)
    ensures Accounts(s, pieces, Outcome(Begin(s, e).state, Begin(s, e).effects))
  {
    hide Begin, Finish, Accounts, InternalError, Plain, Claimed;
    var p := Begin(s, e);
    var c := Claimed(s);
    BeginEnds(s, e);
    ClaimedPlain(s);
    if s.finished || s.coroutine.Some? || (!s.mustCancel && e.factory.Built? && e.contextCopied) {
      BeginPlain(s, e);
      pieces := One(s, PlainPiece(Outcome(p.state, p.effects)));
    } else if s.mustCancel {
      assert [] + p.effects == p.effects;
      pieces := FinishAfter(s, c, [], InternalError(), Cancelled(s.cancelMessage), p);
    } else if e.factory.FactoryRaised? {
      pieces := FinishAfter(s, c, [CallHandler], InternalError(), Raised(e.factory.error), p);
    } else {
      pieces := FinishAfter(s, c, [CallHandler, CopyContext(false), DiscardCoroutine], InternalError(), Aborted, p);
    }
  }

  lemma {:induction false} ClaimedPlain(s: TaskState)
    ensures Plain(s, Outcome(Claimed(s), [])) && Plain(s, Outcome(Claimed(s), [CallHandler]))
    ensures Plain(s, Outcome(Claimed(s), [CallHandler, CopyContext(false), DiscardCoroutine]))
  {
  }

  /** The turns that end before there is a coroutine. */
  lemma {:induction false} BeginEnds(s: TaskState, e: TurnEnv)
    ensures !s.finished && s.coroutine.None? ==>
              var c := Claimed(s);
              if s.mustCancel then
                Begin(s, e) == Stopped(Finish(c, InternalError(), Cancelled(s.cancelMessage)))
              else if e.factory.FactoryRaised? then
                Begin(s, e) == After([CallHandler], Stopped(Finish(c, InternalError(), Raised(e.factory.error))))
              else !e.contextCopied ==>
                Begin(s, e) == After([CallHandler, CopyContext(false), DiscardCoroutine],
                                     Stopped(Finish(c, InternalError(), Aborted)))
  {
    hide Finish, InternalError, PendingThrow, Enter;
  }

  /** The others up to the advance. */
  lemma {:induction false} BeginPlain(s: TaskState, e: TurnEnv)
    requires s.finished || s.coroutine.Some? || (!s.mustCancel && e.factory.Built? && e.contextCopied)
    ensures Plain(s, Outcome(Begin(s, e).state, Begin(s, e).effects))
  {
    hide Finish, InternalError, PendingThrow, Plain, Claimed, Enter;
    var c, pending := Claimed(s), PendingThrow(s.deferredThrow, e.wake, s.mustCancel, s.cancelMessage);
    if s.finished {
      NothingIsPlain(s);
    } else {
      ClaimedPlain(s);
      EnterIsPlain(s, c, e, pending);
      if s.coroutine.None? {
        var started := c.(coroutine := Some(e.factory.coroutine), context := Some(e.factory.context), registered := c.registered || e.registerOk);
        StartIsPlain(s, started, e, pending);
      }
    }
  }

  lemma {:induction false} NothingIsPlain(s: TaskState)
    ensures Plain(s, Outcome(s, []))
  {
  }

  lemma {:induction false} EnterIsPlain(s: TaskState, c: TaskState, e: TurnEnv, pending: Option<Exc>)
    requires Plain(s, Outcome(c, []))
    ensures Plain(s, Outcome(Enter(c, e, pending).state, Enter(c, e, pending).effects))
  {
  }

  lemma {:induction false} StartIsPlain(s: TaskState, started: TaskState, e: TurnEnv, pending: Option<Exc>)
    requires !s.finished && e.factory.Built?
    requires started == Claimed(s).(coroutine := Some(e.factory.coroutine), context := Some(e.factory.context), registered := s.registered || e.registerOk)
    ensures var p := After([CallHandler, CopyContext(true), RegisterTask(e.registerOk)], Enter(started, e, pending));
            Plain(s, Outcome(p.state, p.effects))
  {
    var head, p := [CallHandler, CopyContext(true), RegisterTask(e.registerOk)], Enter(started, e, pending);
    assert Plain(started, Outcome(p.state, p.effects)) && RegisterTask(true) !in p.effects;
    assert RegisterTask(true) in head <==> e.registerOk by { assert head[2] == RegisterTask(e.registerOk); }
  }

  lemma {:induction false} FinishAfter(s: TaskState, t: TaskState, effects: seq<Effect>, response: HandlerResponse,
      completion: Completion, p: Phase) returns (pieces: seq<Piece>)
    requires Plain(s, Outcome(t, effects))
    requires response == ResponseFor(completion)
    requires p == Stop(Finish(t, response, completion).state, effects + Finish(t, response, completion).effects)
    ensures Accounts(s, pieces, Outcome(p.state, p.effects))
  {
    hide Finish, Accounts, Plain;
    var last := One(t, FinishPiece(response, completion));
    pieces := PlainThen(s, Outcome(t, effects), last, Finish(t, response, completion));
  }

  lemma {:induction false} SettlePieces(s: TaskState, e: TurnEnv) returns (pieces: seq<Piece>)
    ensures !Settle(s, e).Advance?
    ensures Accounts(s, pieces, Outcome(Settle(s, e).state, Settle(s, e).effects))
  {
    hide Finish, Accounts, InternalError, ReturnResponse, Plain;
    var p := Settle(s, e);
    if e.result.StepReturned? {
      pieces := One(s, FinishPiece(ReturnResponse(e.result.value), Returned(e.result.value)));
    } else if e.result.StepRaised? {
      var error := e.result.error;
      pieces := One(s, FinishPiece(InternalError(),
                                   if error.CancelledError? then Cancelled(error.message) else Raised(error)));
    } else {
      YieldIsPlain(s, e);
      pieces := One(s, PlainPiece(Outcome(p.state, p.effects)));
    }
  }

  lemma {:induction false} YieldIsPlain(s: TaskState, e: TurnEnv)
    requires e.result.StepYieldedNone? || e.result.StepYielded?
    ensures !Settle(s, e).Advance? && Plain(s, Outcome(Settle(s, e).state, Settle(s, e).effects))
  {
    hide Finish, InternalError, ReturnResponse, Misuse;
    if e.result.StepYielded? { ParkIsPlain(s, e, e.result.future, e.result.park); }
  }

  lemma {:induction false} ParkIsPlain(s: TaskState, e: TurnEnv, future: Ref, park: ParkReplies)
    ensures var p := Park(s, e, future, park); !p.Advance? && Plain(s, Outcome(p.state, p.effects))
  {
    hide Misuse;
  }

  lemma {:induction false} ConcludePieces(s: TaskState, before: seq<Piece>, p: Phase, closeOps: seq<Op>)
    returns (pieces: seq<Piece>)
    requires !p.Advance? && Accounts(s, before, Outcome(p.state, p.effects))
    ensures Accounts(s, pieces, Conclude(p, closeOps))
  {
    hide Accounts, Abandon;
    if p.Stop? {
      pieces := before;
    } else {
      var after := AbandonPieces(p.state, closeOps);
      Append(s, before, Outcome(p.state, p.effects), after, Abandon(p.state, closeOps));
      pieces := before + after;
    }
  }

  lemma {:induction false} TurnPieces(s: TaskState, e: TurnEnv) returns (pieces: seq<Piece>)
    ensures Accounts(s, pieces, Turn(s, e))
  {
    hide Accounts, Begin, Settle, Conclude, RunOps;
    var p := Begin(s, e);
    var before := BeginPieces(s, e);
    if !p.Advance? {
      pieces := ConcludePieces(s, before, p, e.closeOps);
    } else {
      var advance := if p.pending.Some? then Throw(p.pending.value) else Send;
      var ran := RunOps(p.state, e.stepOps);
      var ops := OpsPieces(p.state, e.stepOps);
      var settling := SettlePieces(ran.state, e);
      var settled := Conclude(Settle(ran.state, e), e.closeOps);
      var concluding := ConcludePieces(ran.state, settling, Settle(ran.state, e), e.closeOps);
      var exit := Outcome(settled.state, [ExitContext, LeaveTask]);
      var exiting := One(settled.state, PlainPiece(exit));
      Append(ran.state, concluding, settled, exiting, exit);
      var tail := Prefix(settled.effects, exit);
      Append(p.state, ops, ran, concluding + exiting, tail);
      var body := Prefix(ran.effects, tail);
      var advanced := PlainThen(p.state, Outcome(p.state, [advance]), ops + (concluding + exiting), body);
      Append(s, before, Outcome(p.state, p.effects), advanced, Prefix([advance], body));
      pieces := before + advanced;
      Assoc(ran.effects, settled.effects, exit.effects);
      Assoc([advance], ran.effects + settled.effects, exit.effects);
      Assoc([advance], ran.effects, settled.effects);
      Assoc(p.effects, [advance] + ran.effects + settled.effects, exit.effects);
      Assoc(p.effects, [advance] + ran.effects, settled.effects);
      Assoc(p.effects, [advance], ran.effects);
    }
  }

  lemma {:induction false} StepPieces(s: TaskState, event: Event) returns (pieces: seq<Piece>)
    ensures Accounts(s, pieces, Step(s, event))
  {
    hide Accounts, Turn, OpOutcome, Abandon;
    match event {
      case TurnEvent(e) => pieces := TurnPieces(s, e);
      case OpEvent(op) => pieces := One(s, OpPiece(op));
      case DisposeEvent(ops) => pieces := AbandonPieces(s, ops);
    }
  }

  /** Every run is accounted for by pieces. */
  lemma {:induction false} RunPieces(s: TaskState, events: seq<Event>) returns (pieces: seq<Piece>)
    ensures Accounts(s, pieces, Run(s, events))
    decreases |events|
  {
    hide Step;
    if events == [] {
      pieces := [];
    } else {
      var first := Step(s, events[0]);
      var head := StepPieces(s, events[0]);
      var tail := RunPieces(first.state, events[1..]);
      Append(s, head, first, tail, Run(first.state, events[1..]));
      pieces := head + tail;
    }
  }
}
