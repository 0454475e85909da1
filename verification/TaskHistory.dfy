/** What a task reports about itself is its history: `result()` and `exception()` tell
    the one completion that `finish` recorded, whenever they are asked. */
module TaskHistory {
  import opened Wrappers
  import opened JsonWriter
  import opened Responses
  import opened TaskMachine
  import opened TaskProperties
  import opened TaskPieces

  /** The completions recorded, in order. */
  function Endings(effects: seq<Effect>): seq<Completion> {
    if effects == [] then [] else EndingIn(effects[0]) + Endings(effects[1..])
  }

  function EndingIn(e: Effect): seq<Completion> {
    if e.Ended? then [e.completion] else []
  }

  lemma {:induction false} EndingsAppend(a: seq<Effect>, b: seq<Effect>)
    ensures Endings(a + b) == Endings(a) + Endings(b)
  {
    hide EndingIn;
    if a == [] {
      assert a + b == b;
    } else {
      assert (a + b)[1..] == a[1..] + b;
      EndingsAppend(a[1..], b);
    }
  }

  predicate NoneEnds(effects: seq<Effect>) {
    forall i :: 0 <= i < |effects| ==> !effects[i].Ended?
  }

  lemma {:induction false} NoEndings(effects: seq<Effect>)
    requires NoneEnds(effects)
    ensures Endings(effects) == []
  {
    if effects != [] { NoEndings(effects[1..]); }
  }

  lemma {:induction false} DropsNoneEnds(callbacks: seq<Callback>)
    ensures NoneEnds(Drops(callbacks))
  {
    if callbacks != [] { DropsNoneEnds(callbacks[1..]); }
  }

  lemma {:induction false} FiresNoneEnds(callbacks: seq<Callback>)
    ensures NoneEnds(Fires(callbacks))
  {
    if callbacks != [] { FiresNoneEnds(callbacks[1..]); }
  }

  const UNTOLD: Verdict := Verdict(false, false, None, None, None)

  /** A finished task has recorded one completion, and holds what it says; an unfinished
      one has recorded none and holds nothing. */
  predicate Told(endings: seq<Completion>, s: TaskState) {
    if s.finished then |endings| == 1 && VerdictOf(s) == VerdictFor(endings[0]) else endings == [] && VerdictOf(s) == UNTOLD
  }

  lemma {:induction false} OpNoneEnds(s: TaskState, op: Op)
    ensures NoneEnds(OpOutcome(s, op).effects)
  {
    hide Drops, Without, Gone;
    if op.RemoveCallback? { DropsNoneEnds(Gone(s.doneCallbacks, op.equal)); }
  }

  lemma {:induction false} FinishEndings(s: TaskState, response: HandlerResponse, completion: Completion)
    ensures Endings(Finish(s, response, completion).effects) == if s.finished then [] else [completion]
  {
    hide Endings, Fires;
    var effects := Finish(s, response, completion).effects;
    if s.finished {
      NoEndings(effects);
    } else {
      FiresNoneEnds(s.doneCallbacks);
      assert effects == [Ended(completion)] + effects[1..];
      EndingsAppend([Ended(completion)], effects[1..]);
      NoEndings(effects[1..]);
      OneEnding(completion);
    }
  }

  lemma {:induction false} OneEnding(completion: Completion)
    ensures Endings([Ended(completion)]) == [completion]
  {
    assert [Ended(completion)][1..] == [];
  }

  lemma {:induction false} NeutralNoneEnds(effects: seq<Effect>)
    requires AllNeutral(effects)
    ensures NoneEnds(effects)
  {
  }

  lemma {:induction false} PieceTells(endings: seq<Completion>, s: TaskState, piece: Piece)
    requires Told(endings, s) && Allowed(s, piece)
    ensures Told(endings + Endings(Play(s, piece).effects), Play(s, piece).state)
  {
    hide OpOutcome, Endings, ResponseFor, AllNeutral, FinishProgram;
    var o := Play(s, piece);
    match piece {
      case OpPiece(op) =>
        OpNoneEnds(s, op);
        NoEndings(o.effects);
        OpKeepsVerdict(s, op);
        assert endings + [] == endings;
      case PlainPiece(_) =>
        NeutralNoneEnds(o.effects);
        NoEndings(o.effects);
        assert endings + [] == endings;
      case FinishPiece(response, completion) =>
        FinishEndings(s, response, completion);
        if s.finished { assert endings + [] == endings; } else { FinishRecords(s, response, completion); }
    }
  }

  lemma {:induction false} PiecesTell(endings: seq<Completion>, s: TaskState, pieces: seq<Piece>)
    requires Told(endings, s) && AllAllowed(s, pieces)
    ensures Told(endings + Endings(PlayAll(s, pieces).effects), PlayAll(s, pieces).state)
    decreases |pieces|
  {
    hide Told, Play, Allowed;
    if pieces == [] {
      assert endings + [] == endings;
    } else {
      var first := Play(s, pieces[0]);
      var rest := PlayAll(first.state, pieces[1..]);
      PieceTells(endings, s, pieces[0]);
      PiecesTell(endings + Endings(first.effects), first.state, pieces[1..]);
      EndingsAppend(first.effects, rest.effects);
      assert endings + Endings(first.effects) + Endings(rest.effects) == endings + (Endings(first.effects) + Endings(rest.effects));
    }
  }

  /** What `result()` and `exception()` should say after a history. */
  function ResultAfter(endings: seq<Completion>): Reading<PyValue> {
    if endings == [] then Running
    else
      match endings[0]
      case Returned(value) => Gave(value)
      case Raised(error) => Failed(error)
      case Cancelled(message) => WasCancelled(message)
      case Aborted => Gave(PyNone)
  }

  function ExceptionAfter(endings: seq<Completion>): Reading<Option<Exc>> {
    if endings == [] then Running
    else
      match endings[0]
      case Raised(error) => Gave(Some(error))
      case Cancelled(message) => WasCancelled(message)
      case _ => Gave(None)
  }

  /** Over every run: a task ends at most once, it is finished exactly if it has ended, and
      both accessors report that ending. */
  lemma {:induction false} AccessorsTellHistory(events: seq<Event>)
    ensures var o := Run(FRESH, events);
            var endings := Endings(o.effects);
            && |endings| <= 1 && (o.state.finished <==> endings != [])
            && (endings == [] ==> ResultOf(o.state) == Running && ExceptionOf(o.state) == Running)
            && (endings != [] ==>
                  match endings[0]
                  case Returned(value) => ResultOf(o.state) == Gave(value) && ExceptionOf(o.state) == Gave(None)
                  case Raised(error) => ResultOf(o.state) == Failed(error) && ExceptionOf(o.state) == Gave(Some(error))
                  case Cancelled(message) =>
                    ResultOf(o.state) == WasCancelled(message) && ExceptionOf(o.state) == WasCancelled(message)
                  case Aborted => ResultOf(o.state) == Gave(PyNone) && ExceptionOf(o.state) == Gave(None))
  {
    hide Run, Endings, PlayAll, AllAllowed;
    var pieces := RunPieces(FRESH, events);
    PiecesTell([], FRESH, pieces);
    assert [] + Endings(Run(FRESH, events).effects) == Endings(Run(FRESH, events).effects);
  }

  /** What has been told stays told: once a run has ended the task, whatever comes after
      adds no ending, and both accessors report the same. */
  lemma {:induction false} ToldForGood(events: seq<Event>, more: seq<Event>)
    requires Endings(Run(FRESH, events).effects) != []
    ensures var early, late := Run(FRESH, events), Run(FRESH, events + more);
            && Endings(late.effects) == Endings(early.effects)
            && ResultOf(late.state) == ResultOf(early.state) && ExceptionOf(late.state) == ExceptionOf(early.state)
  {
    hide Endings, Run;
    var early := Run(FRESH, events);
    RunAppend(FRESH, events, more);
    AccessorsTellHistory(events);
    AccessorsTellHistory(events + more);
    EndingsAppend(early.effects, Run(early.state, more).effects);
  }

  lemma {:induction false} RunAppend(s: TaskState, a: seq<Event>, b: seq<Event>)
    ensures Run(s, a + b) == Prefix(Run(s, a).effects, Run(Run(s, a).state, b))
    decreases |a|
  {
    hide Step;
    if a == [] {
      assert a + b == b && [] + Run(s, b).effects == Run(s, b).effects;
    } else {
      assert (a + b)[1..] == a[1..] + b;
      RunAppend(Step(s, a[0]).state, a[1..], b);
    }
  }

  lemma {:induction false} RunOne(s: TaskState, event: Event)
    ensures Run(s, [event]) == Step(s, event)
  {
    hide Step;
    var o := Step(s, event);
    assert [event][1..] == [] && Run(o.state, []) == Outcome(o.state, []);
    assert o.effects + [] == o.effects;
  }

  /** A state and a log that some history of a fresh task leads to. */
  ghost predicate Lived(state: TaskState, calls: seq<Effect>) {
    exists events :: Run(FRESH, events) == Outcome(state, calls)
  }

  lemma {:induction false} LivesOn(state: TaskState, calls: seq<Effect>, event: Event)
    requires Lived(state, calls)
    ensures Lived(Step(state, event).state, calls + Step(state, event).effects)
  {
    hide Step, Run;
    var events :| Run(FRESH, events) == Outcome(state, calls);
    RunAppend(FRESH, events, [event]);
    RunOne(state, event);
    assert Run(FRESH, events + [event])
        == Outcome(Step(state, event).state, calls + Step(state, event).effects);
  }

  lemma {:induction false} LivedTells(state: TaskState, calls: seq<Effect>)
    requires Lived(state, calls)
    ensures var endings := Endings(calls);
            && |endings| <= 1 && (state.finished <==> endings != [])
            && ResultOf(state) == ResultAfter(endings) && ExceptionOf(state) == ExceptionAfter(endings)
  {
    hide Run, Endings;
    var events :| Run(FRESH, events) == Outcome(state, calls);
    AccessorsTellHistory(events);
  }

  lemma {:induction false} FreshLived()
    ensures Lived(FRESH, [])
  {
    assert Run(FRESH, []) == Outcome(FRESH, []);
  }

  // ----- The response of a run

  function ResponseIn(e: Effect): seq<HandlerResponse> {
    if e.Respond? then [e.response] else []
  }

  /** The responses a task attempts to send, in order; the channel lets the first out. */
  function Replies(effects: seq<Effect>): seq<HandlerResponse> {
    if effects == [] then [] else ResponseIn(effects[0]) + Replies(effects[1..])
  }

  lemma {:induction false} ResponsesAppend(a: seq<Effect>, b: seq<Effect>)
    ensures Replies(a + b) == Replies(a) + Replies(b)
  {
    hide ResponseIn;
    if a == [] {
      assert a + b == b;
    } else {
      assert (a + b)[1..] == a[1..] + b;
      ResponsesAppend(a[1..], b);
    }
  }

  predicate NoneAnswers(effects: seq<Effect>) {
    forall i :: 0 <= i < |effects| ==> !effects[i].Respond?
  }

  lemma {:induction false} NoResponses(effects: seq<Effect>)
    requires NoneAnswers(effects)
    ensures Replies(effects) == []
  {
    if effects != [] { NoResponses(effects[1..]); }
  }

  lemma {:induction false} DropsNoneAnswers(callbacks: seq<Callback>)
    ensures NoneAnswers(Drops(callbacks))
  {
    if callbacks != [] { DropsNoneAnswers(callbacks[1..]); }
  }

  lemma {:induction false} FiresNoneAnswers(callbacks: seq<Callback>)
    ensures NoneAnswers(Fires(callbacks))
  {
    if callbacks != [] { FiresNoneAnswers(callbacks[1..]); }
  }

  lemma {:induction false} OpNoneAnswers(s: TaskState, op: Op)
    ensures NoneAnswers(OpOutcome(s, op).effects)
  {
    hide Drops, Without, Gone;
    if op.RemoveCallback? { DropsNoneAnswers(Gone(s.doneCallbacks, op.equal)); }
  }

  lemma {:induction false} FinishResponses(s: TaskState, response: HandlerResponse, completion: Completion)
    ensures Replies(Finish(s, response, completion).effects) == [response]
  {
    hide Replies, Fires;
    var effects := Finish(s, response, completion).effects;
    var before := effects[..|effects| - 1];
    FiresNoneAnswers(s.doneCallbacks);
    assert effects == before + [Respond(response)];
    ResponsesAppend(before, [Respond(response)]);
    NoResponses(before);
    OneResponse(response);
  }

  lemma {:induction false} OneResponse(response: HandlerResponse)
    ensures Replies([Respond(response)]) == [response]
  {
    assert [Respond(response)][1..] == [];
  }

  /** The first response belongs to the one ending. */
  predicate Answered(endings: seq<Completion>, responses: seq<HandlerResponse>, s: TaskState) {
    if s.finished then |endings| == 1 && responses != [] && responses[0] == ResponseFor(endings[0])
    else endings == [] && responses == []
  }

  lemma {:induction false} PieceAnswers(endings: seq<Completion>, responses: seq<HandlerResponse>, s: TaskState, piece: Piece)
    requires Answered(endings, responses, s) && Allowed(s, piece)
    ensures var o := Play(s, piece);
            Answered(endings + Endings(o.effects), responses + Replies(o.effects), o.state)
  {
    hide OpOutcome, Endings, Replies, InternalError, ReturnResponse;
    var o := Play(s, piece);
    match piece {
      case OpPiece(op) =>
        OpNoneEnds(s, op);
        NoEndings(o.effects);
        OpNoneAnswers(s, op);
        NoResponses(o.effects);
        OpKeepsVerdict(s, op);
      case PlainPiece(_) =>
        NeutralNoneEnds(o.effects);
        NoEndings(o.effects);
        NoResponses(o.effects);
      case FinishPiece(response, completion) =>
        FinishEndings(s, response, completion);
        FinishResponses(s, response, completion);
        hide FinishProgram;
    }
  }

  lemma {:induction false} PiecesAnswer(endings: seq<Completion>, responses: seq<HandlerResponse>, s: TaskState, pieces: seq<Piece>)
    requires Answered(endings, responses, s) && AllAllowed(s, pieces)
    ensures var o := PlayAll(s, pieces);
            Answered(endings + Endings(o.effects), responses + Replies(o.effects), o.state)
    decreases |pieces|
  {
    hide Answered, Play, Allowed, PlayAll, AllAllowed, Endings, Replies;
    PlayOn(s, pieces);
    if pieces == [] {
      NothingSaid();
      assert endings + [] == endings && responses + [] == responses;
    } else {
      var first := Play(s, pieces[0]);
      var rest := PlayAll(first.state, pieces[1..]);
      PieceAnswers(endings, responses, s, pieces[0]);
      PiecesAnswer(endings + Endings(first.effects), responses + Replies(first.effects), first.state, pieces[1..]);
      EndingsAppend(first.effects, rest.effects);
      ResponsesAppend(first.effects, rest.effects);
      assert endings + Endings(first.effects) + Endings(rest.effects) == endings + (Endings(first.effects) + Endings(rest.effects));
      assert responses + Replies(first.effects) + Replies(rest.effects)
          == responses + (Replies(first.effects) + Replies(rest.effects));
    }
  }

  lemma {:induction false} NothingSaid()
    ensures Endings([]) == [] && Replies([]) == []
  {
  }

  /** Over every run the response and the one ending belong together: a task whose handler
      returned a value answers with what that value becomes, any other end with the opaque
      500, and a task that has not ended has not answered. */
  lemma {:induction false} ResponseFitsEnding(events: seq<Event>)
    ensures var o := Run(FRESH, events);
            var endings, responses := Endings(o.effects), Replies(o.effects);
            && (o.state.finished ==>
                  && |endings| == 1 && responses != []
                  && responses[0] == if endings[0].Returned? then ReturnResponse(endings[0].value) else InternalError())
            && (!o.state.finished ==> endings == [] && responses == [])
  {
    hide Run, Endings, Replies, PlayAll, AllAllowed, InternalError, ReturnResponse;
    var pieces := RunPieces(FRESH, events);
    PiecesAnswer([], [], FRESH, pieces);
    var o := Run(FRESH, events);
    assert [] + Endings(o.effects) == Endings(o.effects) && [] + Replies(o.effects) == Replies(o.effects);
  }
}
