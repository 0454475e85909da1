/** Done callbacks and the end of a task: nothing added is lost, doubled or
    reordered, and the response is the last thing a finish releases. */
module TaskCallbacks {
  import opened Wrappers
  import opened Responses
  import opened TaskMachine
  import opened TaskPieces

  // ----- The ledger of callbacks

  /** Callbacks accepted, dropped by `remove_done_callback`, and handed to
      `call_soon`, each in order. */
  datatype Ledger = Ledger(accepted: seq<Callback>, dropped: seq<Callback>, handed: seq<Callback>)

  const EMPTY: Ledger := Ledger([], [], [])

  function Post(l: Ledger, e: Effect): Ledger {
    match e
    case Accept(callback) => l.(accepted := l.accepted + [callback])
    case Drop(callback) => l.(dropped := l.dropped + [callback])
    case Fire(callback) => l.(handed := l.handed + [callback])
    case _ => l
  }

  function Tally(l: Ledger, effects: seq<Effect>): Ledger
    decreases |effects|
  {
    if effects == [] then l else Tally(Post(l, effects[0]), effects[1..])
  }

  lemma {:induction false} TallyAppend(l: Ledger, a: seq<Effect>, b: seq<Effect>)
    ensures Tally(l, a + b) == Tally(Tally(l, a), b)
    decreases |a|
  {
    hide Post;
    if a == [] {
      assert a + b == b;
    } else {
      assert (a + b)[1..] == a[1..] + b;
      TallyAppend(Post(l, a[0]), a[1..], b);
    }
  }

  lemma {:induction false} TallyCons(l: Ledger, e: Effect, rest: seq<Effect>)
    ensures Tally(l, [e] + rest) == Tally(Post(l, e), rest)
  {
  }

  lemma {:induction false} TallyOne(l: Ledger, e: Effect)
    ensures Tally(l, [e]) == Post(l, e)
  {
  }

  predicate Silent(effects: seq<Effect>) {
    forall i :: 0 <= i < |effects| ==> !effects[i].Accept? && !effects[i].Drop? && !effects[i].Fire?
  }

  lemma {:induction false} SilentTally(l: Ledger, effects: seq<Effect>)
    requires Silent(effects)
    ensures Tally(l, effects) == l
    decreases |effects|
  {
    if effects != [] {
      SilentTally(l, effects[1..]);
    }
  }

  lemma {:induction false} FiresTally(l: Ledger, callbacks: seq<Callback>)
    ensures Tally(l, Fires(callbacks)) == l.(handed := l.handed + callbacks)
    decreases |callbacks|
  {
    if callbacks == [] {
      assert l.handed + [] == l.handed;
    } else {
      var head, tail := callbacks[0], callbacks[1..];
      TallyCons(l, Fire(head), Fires(tail));
      hide Tally;
      FiresTally(l.(handed := l.handed + [head]), tail);
      assert (l.handed + [head]) + tail == l.handed + callbacks;
    }
  }

  lemma {:induction false} DropsTally(l: Ledger, callbacks: seq<Callback>)
    ensures Tally(l, Drops(callbacks)) == l.(dropped := l.dropped + callbacks)
    decreases |callbacks|
  {
    if callbacks == [] {
      assert l.dropped + [] == l.dropped;
    } else {
      var head, tail := callbacks[0], callbacks[1..];
      TallyCons(l, Drop(head), Drops(tail));
      hide Tally;
      DropsTally(l.(dropped := l.dropped + [head]), tail);
      assert (l.dropped + [head]) + tail == l.dropped + callbacks;
    }
  }

  lemma {:induction false} GonePartition(callbacks: seq<Callback>, equal: set<Ref>)
    ensures multiset(callbacks) == multiset(Without(callbacks, equal)) + multiset(Gone(callbacks, equal))
  {
    if callbacks != [] {
      GonePartition(callbacks[1..], equal);
      assert callbacks == [callbacks[0]] + callbacks[1..];
    }
  }

  /** `a` is what is left of `b` after leaving some elements out. */
  predicate Subsequence(a: seq<Callback>, b: seq<Callback>)
    decreases |b|
  {
    if a == [] then true
    else if b == [] then false
    else if a[|a| - 1] == b[|b| - 1] && Subsequence(a[..|a| - 1], b[..|b| - 1]) then true
    else Subsequence(a, b[..|b| - 1])
  }

  lemma {:induction false} SubsequenceGrow(a: seq<Callback>, b: seq<Callback>, c: seq<Callback>)
    requires Subsequence(a, b)
    ensures Subsequence(a + c, b + c)
    decreases |c|
  {
    if c == [] {
      assert a + c == a && b + c == b;
    } else {
      var init, last := c[..|c| - 1], c[|c| - 1];
      SubsequenceGrow(a, b, init);
      assert (a + c)[..|a + c| - 1] == a + init && (b + c)[..|b + c| - 1] == b + init;
    }
  }

  lemma {:induction false} SubsequenceWider(a: seq<Callback>, b: seq<Callback>, x: Callback)
    requires Subsequence(a, b)
    ensures Subsequence(a, b + [x])
  {
  }

  lemma {:induction false} SubsequenceTrans(a: seq<Callback>, b: seq<Callback>, c: seq<Callback>)
    requires Subsequence(a, b) && Subsequence(b, c)
    ensures Subsequence(a, c)
    decreases |b| + |c|
  {
    if a != [] {
      var a', b', c' := a[..|a| - 1], b[..|b| - 1], c[..|c| - 1];
      if b[|b| - 1] == c[|c| - 1] && Subsequence(b', c') {
        if a[|a| - 1] == b[|b| - 1] && Subsequence(a', b') {
          SubsequenceTrans(a', b', c');
        } else {
          SubsequenceTrans(a, b', c');
          SubsequenceWider(a, c', c[|c| - 1]);
          assert c' + [c[|c| - 1]] == c;
        }
      } else {
        SubsequenceTrans(a, b, c');
        SubsequenceWider(a, c', c[|c| - 1]);
        assert c' + [c[|c| - 1]] == c;
      }
    }
  }

  lemma {:induction false} WithoutSubsequence(callbacks: seq<Callback>, equal: set<Ref>, kept: seq<Callback>)
    ensures Subsequence(kept + Without(callbacks, equal), kept + callbacks)
    decreases |callbacks|
  {
    hide Subsequence;
    if callbacks == [] {
      SubsequenceSelf(kept + callbacks);
    } else {
      var head, tail := callbacks[0], callbacks[1..];
      var left := Without(tail, equal);
      WithoutSubsequence(tail, equal, kept + [head]);
      hide Without;
      assert kept + callbacks == (kept + [head]) + tail;
      if head.callable in equal {
        WithoutHead(callbacks, equal);
        SubsequenceSelf(kept);
        SubsequenceWider(kept, kept, head);
        SubsequenceGrow(kept, kept + [head], left);
        SubsequenceTrans(kept + left, (kept + [head]) + left, (kept + [head]) + tail);
      } else {
        WithoutHead(callbacks, equal);
        assert kept + ([head] + left) == (kept + [head]) + left;
      }
    }
  }

  lemma {:induction false} WithoutHead(callbacks: seq<Callback>, equal: set<Ref>)
    requires callbacks != []
    ensures var left := Without(callbacks[1..], equal);
            Without(callbacks, equal) == if callbacks[0].callable in equal then left else [callbacks[0]] + left
  {
  }

  lemma {:induction false} SubsequenceSelf(a: seq<Callback>)
    ensures Subsequence(a, a)
  {
    if a != [] {
      SubsequenceSelf(a[..|a| - 1]);
    }
  }

  /** The conservation law: what was accepted is pending, dropped or handed over,
      exactly once in all, and is handed over in the order of acceptance, the pending
      ones last. */
  predicate Conserved(l: Ledger, pending: seq<Callback>) {
    && multiset(l.accepted) == multiset(pending) + multiset(l.dropped) + multiset(l.handed)
    && Subsequence(l.handed + pending, l.accepted)
  }

  lemma {:induction false} AcceptPending(l: Ledger, pending: seq<Callback>, callback: Callback)
    requires Conserved(l, pending)
    ensures Conserved(l.(accepted := l.accepted + [callback]), pending + [callback])
  {
    hide Subsequence;
    SubsequenceGrow(l.handed + pending, l.accepted, [callback]);
    assert (l.handed + pending) + [callback] == l.handed + (pending + [callback]);
  }

  lemma {:induction false} DropPending(l: Ledger, pending: seq<Callback>, equal: set<Ref>)
    requires Conserved(l, pending)
    ensures Conserved(l.(dropped := l.dropped + Gone(pending, equal)), Without(pending, equal))
  {
    hide Subsequence, Without, Gone;
    GonePartition(pending, equal);
    WithoutSubsequence(pending, equal, l.handed);
    SubsequenceTrans(l.handed + Without(pending, equal), l.handed + pending, l.accepted);
  }

  lemma {:induction false} HandPending(l: Ledger, pending: seq<Callback>)
    requires Conserved(l, pending)
    ensures Conserved(l.(handed := l.handed + pending), [])
  {
    hide Subsequence;
    assert (l.handed + pending) + [] == l.handed + pending;
  }

  lemma {:induction false} OpConserves(l: Ledger, s: TaskState, op: Op)
    requires Conserved(l, s.doneCallbacks) && (s.finished ==> s.doneCallbacks == [])
    ensures var o := OpOutcome(s, op);
            Conserved(Tally(l, o.effects), o.state.doneCallbacks) && (o.state.finished ==> o.state.doneCallbacks == [])
  {
    var o := OpOutcome(s, op);
    hide Conserved, Tally, Drops, Gone;
    match op {
      case Cancel(_, _) => SilentTally(l, o.effects);
      case Uncancel => SilentTally(l, o.effects);
      case AddCallback(callback, contextCopied) =>
        if contextCopied {
          TallyOne(l, Accept(callback));
          AcceptPending(l, s.doneCallbacks, callback);
          if s.finished {
            var accepted := l.(accepted := l.accepted + [callback]);
            assert [] + [callback] == [callback];
            TallyAppend(l, [Accept(callback)], [Fire(callback)]);
            TallyOne(accepted, Fire(callback));
            HandPending(accepted, [callback]);
            assert [Accept(callback)] + [Fire(callback)] == o.effects;
          }
        } else {
          SilentTally(l, o.effects);
        }
      case RemoveCallback(equal) =>
        DropsTally(l, Gone(s.doneCallbacks, equal));
        DropPending(l, s.doneCallbacks, equal);
    }
  }

  lemma {:induction false} FinishTally(l: Ledger, completion: Completion, registered: bool, callbacks: seq<Callback>, response: HandlerResponse)
    ensures Tally(l, FinishProgram(completion, registered, callbacks, response)) == l.(handed := l.handed + callbacks)
  {
    var head := [Ended(completion), RemoveLive] + if registered then [UnregisterTask] else [];
    hide Tally, Fires;
    SilentTally(l, head);
    TallyAppend(l, head, Fires(callbacks));
    FiresTally(l, callbacks);
    TallyAppend(l, head + Fires(callbacks), [Respond(response)]);
    SilentTally(l.(handed := l.handed + callbacks), [Respond(response)]);
  }

  lemma {:induction false} PieceConserves(l: Ledger, s: TaskState, piece: Piece)
    requires Conserved(l, s.doneCallbacks) && (s.finished ==> s.doneCallbacks == []) && Allowed(s, piece)
    ensures var o := Play(s, piece);
            Conserved(Tally(l, o.effects), o.state.doneCallbacks) && (o.state.finished ==> o.state.doneCallbacks == [])
  {
    var o := Play(s, piece);
    hide Conserved, Tally, OpOutcome, FinishProgram;
    match piece {
      case OpPiece(op) => OpConserves(l, s, op);
      case PlainPiece(_) => SilentTally(l, o.effects);
      case FinishPiece(response, completion) =>
        if s.finished {
          SilentTally(l, o.effects);
        } else {
          FinishTally(l, completion, s.registered, s.doneCallbacks, response);
          HandPending(l, s.doneCallbacks);
        }
    }
  }

  lemma {:induction false} PiecesConserve(l: Ledger, s: TaskState, pieces: seq<Piece>)
    requires Conserved(l, s.doneCallbacks) && (s.finished ==> s.doneCallbacks == []) && AllAllowed(s, pieces)
    ensures var o := PlayAll(s, pieces);
            Conserved(Tally(l, o.effects), o.state.doneCallbacks) && (o.state.finished ==> o.state.doneCallbacks == [])
    decreases |pieces|
  {
    hide Conserved, Play, Allowed, Tally;
    if pieces == [] {
      SilentTally(l, []);
    } else {
      var first := Play(s, pieces[0]);
      PieceConserves(l, s, pieces[0]);
      PiecesConserve(Tally(l, first.effects), first.state, pieces[1..]);
      TallyAppend(l, first.effects, PlayAll(first.state, pieces[1..]).effects);
    }
  }

  lemma {:induction false} WithoutCounts(callbacks: seq<Callback>, equal: set<Ref>, c: Callback)
    ensures multiset(Without(callbacks, equal))[c] == if c.callable in equal then 0 else multiset(callbacks)[c]
  {
    if callbacks != [] {
      WithoutCounts(callbacks[1..], equal, c);
      assert callbacks == [callbacks[0]] + callbacks[1..];
    }
  }

  /** What `remove_done_callback` does, exactly: every pending callback equal to the one
      given goes, each other stays as often as it was there and in its place, and nothing
      else about the task changes. */
  lemma {:induction false} RemoveExactly(s: TaskState, equal: set<Ref>)
    ensures var o := OpOutcome(s, RemoveCallback(equal));
            && o.state == s.(doneCallbacks := o.state.doneCallbacks)
            && Subsequence(o.state.doneCallbacks, s.doneCallbacks)
            && (forall c :: multiset(o.state.doneCallbacks)[c] == if c.callable in equal then 0 else multiset(s.doneCallbacks)[c])
  {
    forall c ensures multiset(Without(s.doneCallbacks, equal))[c] == if c.callable in equal then 0 else multiset(s.doneCallbacks)[c] {
      WithoutCounts(s.doneCallbacks, equal, c);
    }
    WithoutSubsequence(s.doneCallbacks, equal, []);
    assert [] + Without(s.doneCallbacks, equal) == Without(s.doneCallbacks, equal) && [] + s.doneCallbacks == s.doneCallbacks;
    hide Subsequence, Drops, Gone;
  }

  /** What `add_done_callback` does, exactly: a callback whose context was copied is
      accepted once, pending last while the task runs, and handed on at once after. */
  lemma {:induction false} AddExactly(s: TaskState, callback: Callback, contextCopied: bool)
    ensures var o := OpOutcome(s, AddCallback(callback, contextCopied));
            && (!contextCopied ==> o == Outcome(s, []))
            && (contextCopied && !s.finished ==>
                  o == Outcome(s.(doneCallbacks := s.doneCallbacks + [callback]), [Accept(callback)]))
            && (contextCopied && s.finished ==> o == Outcome(s, [Accept(callback), Fire(callback)]))
  {
  }

  /** Done-callback conservation: over every run of a task, each callback accepted is
      pending, dropped or handed to `call_soon`, exactly once in all; they are handed
      over in registration order; and a finished task has none pending. */
  lemma {:induction false} CallbacksConserved(events: seq<Event>)
    ensures var o := Run(FRESH, events);
            && Conserved(Tally(EMPTY, o.effects), o.state.doneCallbacks)
            && (o.state.finished ==> o.state.doneCallbacks == [])
  {
    hide Run, Tally, PlayAll, AllAllowed;
    var pieces := RunPieces(FRESH, events);
    PiecesConserve(EMPTY, FRESH, pieces);
  }

  // ----- The end of a task

  /** No part of a finish has happened. */
  predicate NoEnding(effects: seq<Effect>) {
    forall i :: 0 <= i < |effects| ==>
      !effects[i].RemoveLive? && !effects[i].UnregisterTask? && !effects[i].Fire? && !effects[i].Respond?
      && !effects[i].Ended?
  }

  /** Nothing ends, and nothing leaves a registry, any more. */
  predicate NoLeaving(effects: seq<Effect>) {
    forall i :: 0 <= i < |effects| ==>
      !effects[i].RemoveLive? && !effects[i].UnregisterTask? && !effects[i].Ended?
  }

  /** The effects of a finished run, split at its one finish. */
  ghost predicate EndsOnce(effects: seq<Effect>) {
    exists before, completion, registered, callbacks, response, after ::
      SplitAt(effects, before, completion, registered, callbacks, response, after)
  }

  predicate SplitAt(effects: seq<Effect>, before: seq<Effect>, completion: Completion, registered: bool,
                    callbacks: seq<Callback>, response: HandlerResponse, after: seq<Effect>) {
    && effects == before
                  + ([Ended(completion), RemoveLive] + (if registered then [UnregisterTask] else []) + Fires(callbacks) + [Respond(response)])
                  + after
    && NoEnding(before) && NoLeaving(after)
  }

  ghost predicate Ending(effects: seq<Effect>, s: TaskState) {
    if s.finished then EndsOnce(effects) else NoEnding(effects)
  }

  lemma {:induction false} DropsEnding(callbacks: seq<Callback>)
    ensures NoEnding(Drops(callbacks))
  {
    if callbacks != [] {
      DropsEnding(callbacks[1..]);
    }
  }

  lemma {:induction false} OpEnding(s: TaskState, op: Op)
    ensures OpOutcome(s, op).state.finished == s.finished
    ensures NoLeaving(OpOutcome(s, op).effects)
    ensures !s.finished ==> NoEnding(OpOutcome(s, op).effects)
  {
    hide Drops, Without;
    if op.RemoveCallback? { DropsEnding(Gone(s.doneCallbacks, op.equal)); }
  }

  lemma {:induction false} StillEnded(effects: seq<Effect>, more: seq<Effect>)
    requires EndsOnce(effects) && NoLeaving(more)
    ensures EndsOnce(effects + more)
  {
    var before, completion, registered, callbacks, response, after :|
      SplitAt(effects, before, completion, registered, callbacks, response, after);
    hide Fires;
    assert effects + more == before
      + ([Ended(completion), RemoveLive] + (if registered then [UnregisterTask] else []) + Fires(callbacks) + [Respond(response)])
      + (after + more);
    assert SplitAt(effects + more, before, completion, registered, callbacks, response, after + more);
  }

  lemma {:induction false} PieceEnding(before: seq<Effect>, s: TaskState, piece: Piece)
    requires Ending(before, s) && Allowed(s, piece)
    ensures Ending(before + Play(s, piece).effects, Play(s, piece).state)
  {
    hide OpOutcome, FinishProgram, EndsOnce, Plain;
    var o := Play(s, piece);
    if piece.OpPiece? { OpEnding(s, piece.op); }
    if piece.PlainPiece? { PlainEnding(s, o); }
    if s.finished {
      StillEnded(before, o.effects);
    } else if piece.FinishPiece? {
      FinishEnds(before, piece.completion, s.registered, s.doneCallbacks, piece.response);
    }
  }

  lemma {:induction false} PlainEnding(s: TaskState, o: Outcome)
    requires Plain(s, o)
    ensures NoEnding(o.effects) && NoLeaving(o.effects) && o.state.finished == s.finished
  {
    NeutralEnding(o.effects);
  }

  lemma {:induction false} NeutralEnding(effects: seq<Effect>)
    requires AllNeutral(effects)
    ensures NoEnding(effects) && NoLeaving(effects)
  {
  }

  lemma {:induction false} FinishEnds(before: seq<Effect>, completion: Completion, registered: bool, callbacks: seq<Callback>, response: HandlerResponse)
    requires NoEnding(before)
    ensures EndsOnce(before + FinishProgram(completion, registered, callbacks, response))
  {
    hide Fires;
    var effects := before + FinishProgram(completion, registered, callbacks, response);
    assert effects == effects + [];
    assert SplitAt(effects, before, completion, registered, callbacks, response, []);
  }

  lemma {:induction false} PiecesEnding(before: seq<Effect>, s: TaskState, pieces: seq<Piece>)
    requires Ending(before, s) && AllAllowed(s, pieces)
    ensures Ending(before + PlayAll(s, pieces).effects, PlayAll(s, pieces).state)
    decreases |pieces|
  {
    hide Ending, Play, Allowed;
    if pieces == [] {
      assert before + [] == before;
    } else {
      var first := Play(s, pieces[0]);
      PieceEnding(before, s, pieces[0]);
      PiecesEnding(before + first.effects, first.state, pieces[1..]);
      var rest := PlayAll(first.state, pieces[1..]);
      assert before + (first.effects + rest.effects) == (before + first.effects) + rest.effects;
    }
  }

  /** A task ends at most once, and in this order: nothing of a finish before it; off
      the live list, out of asyncio if it was in, its callbacks, and then the
      response; nothing leaves a registry after it. An unfinished task has done none
      of it. */
  lemma {:induction false} EndsOnceResponseLast(events: seq<Event>)
    ensures Ending(Run(FRESH, events).effects, Run(FRESH, events).state)
  {
    hide Run, PlayAll, AllAllowed;
    var pieces := RunPieces(FRESH, events);
    PiecesEnding([], FRESH, pieces);
    assert [] + Run(FRESH, events).effects == Run(FRESH, events).effects;
  }

  // ----- Registered with asyncio

  /** Whether asyncio has the task, going by the calls made to it. */
  function Listed(listed: bool, effects: seq<Effect>): bool
    decreases |effects|
  {
    if effects == [] then listed else Listed(ListedAfter(listed, effects[0]), effects[1..])
  }

  function ListedAfter(listed: bool, e: Effect): bool {
    if e == RegisterTask(true) then true else if e == UnregisterTask then false else listed
  }

  /** `unregister_task` is called only while asyncio has the task. */
  predicate UnlistsListed(listed: bool, effects: seq<Effect>)
    decreases |effects|
  {
    effects != [] ==> (effects[0].UnregisterTask? ==> listed) && UnlistsListed(ListedAfter(listed, effects[0]), effects[1..])
  }

  lemma {:induction false} ListedAppend(listed: bool, a: seq<Effect>, b: seq<Effect>)
    ensures Listed(listed, a + b) == Listed(Listed(listed, a), b)
    ensures UnlistsListed(listed, a + b) <==> UnlistsListed(listed, a) && UnlistsListed(Listed(listed, a), b)
    decreases |a|
  {
    hide ListedAfter;
    if a == [] {
      assert a + b == b;
    } else {
      assert (a + b)[1..] == a[1..] + b;
      ListedAppend(ListedAfter(listed, a[0]), a[1..], b);
    }
  }

  predicate Unlisting(effects: seq<Effect>) {
    exists i :: 0 <= i < |effects| && effects[i].UnregisterTask?
  }

  lemma {:induction false} NeverUnlists(listed: bool, effects: seq<Effect>)
    requires !Unlisting(effects)
    ensures UnlistsListed(listed, effects)
    ensures Listed(listed, effects) <==> listed || RegisterTask(true) in effects
    decreases |effects|
  {
    if effects != [] {
      assert !effects[0].UnregisterTask?;
      assert effects == [effects[0]] + effects[1..];
      assert forall i :: 1 <= i < |effects| ==> effects[i] == effects[1..][i - 1];
      NeverUnlists(ListedAfter(listed, effects[0]), effects[1..]);
    }
  }

  predicate Unrelated(effects: seq<Effect>) {
    forall i :: 0 <= i < |effects| ==> !effects[i].UnregisterTask? && !effects[i].RegisterTask?
  }

  lemma {:induction false} UnrelatedKeeps(listed: bool, effects: seq<Effect>)
    requires Unrelated(effects)
    ensures Listed(listed, effects) == listed && UnlistsListed(listed, effects)
    decreases |effects|
  {
    if effects != [] { UnrelatedKeeps(listed, effects[1..]); }
  }

  lemma {:induction false} CallbacksUnrelated(callbacks: seq<Callback>)
    ensures Unrelated(Fires(callbacks)) && Unrelated(Drops(callbacks))
  {
    if callbacks != [] { CallbacksUnrelated(callbacks[1..]); }
  }

  lemma {:induction false} FinishUnlists(s: TaskState, response: HandlerResponse, completion: Completion)
    requires !s.finished
    ensures var o := Finish(s, response, completion);
            !o.state.registered && !Listed(s.registered, o.effects) && UnlistsListed(s.registered, o.effects)
  {
    hide Fires, Listed, UnlistsListed;
    var head := [Ended(completion), RemoveLive] + if s.registered then [UnregisterTask] else [];
    HeadUnlists(completion, s.registered);
    CallbacksUnrelated(s.doneCallbacks);
    UnrelatedKeeps(false, Fires(s.doneCallbacks));
    UnrelatedKeeps(false, [Respond(response)]);
    ListedAppend(s.registered, head, Fires(s.doneCallbacks));
    ListedAppend(s.registered, head + Fires(s.doneCallbacks), [Respond(response)]);
  }

  lemma {:induction false} HeadUnlists(completion: Completion, registered: bool)
    ensures var head := [Ended(completion), RemoveLive] + if registered then [UnregisterTask] else [];
            !Listed(registered, head) && UnlistsListed(registered, head)
  {
    hide Listed, UnlistsListed;
    UnrelatedKeeps(registered, [Ended(completion), RemoveLive]);
    ListedAppend(registered, [Ended(completion), RemoveLive], if registered then [UnregisterTask] else []);
    OneUnlists(registered);
  }

  lemma {:induction false} OneUnlists(registered: bool)
    ensures !Listed(true, [UnregisterTask]) && UnlistsListed(true, [UnregisterTask])
    ensures Listed(registered, []) == registered && UnlistsListed(registered, [])
  {
  }

  lemma {:induction false} PieceLists(s: TaskState, piece: Piece)
    requires Allowed(s, piece) && (s.finished ==> !s.registered)
    ensures var o := Play(s, piece);
            && o.state.registered == Listed(s.registered, o.effects) && UnlistsListed(s.registered, o.effects)
            && (o.state.finished ==> !o.state.registered)
  {
    hide Listed, UnlistsListed, Fires, Drops, Without, Gone, FinishProgram, ResponseFor;
    match piece {
      case OpPiece(op) =>
        if op.RemoveCallback? { CallbacksUnrelated(Gone(s.doneCallbacks, op.equal)); }
        UnrelatedKeeps(s.registered, Play(s, piece).effects);
      case FinishPiece(response, completion) =>
        if s.finished {
          UnrelatedKeeps(s.registered, [Respond(response)]);
        } else {
          FinishUnlists(s, response, completion);
        }
      case PlainPiece(o) => NeverUnlists(s.registered, o.effects);
    }
  }

  lemma {:induction false} PiecesList(s: TaskState, pieces: seq<Piece>)
    requires AllAllowed(s, pieces) && (s.finished ==> !s.registered)
    ensures var o := PlayAll(s, pieces);
            && o.state.registered == Listed(s.registered, o.effects) && UnlistsListed(s.registered, o.effects)
            && (o.state.finished ==> !o.state.registered)
    decreases |pieces|
  {
    hide Play, Allowed;
    if pieces != [] {
      hide Listed, UnlistsListed;
      var first := Play(s, pieces[0]);
      PieceLists(s, pieces[0]);
      PiecesList(first.state, pieces[1..]);
      ListedAppend(s.registered, first.effects, PlayAll(first.state, pieces[1..]).effects);
    }
  }

  /** Over every run the flag says whether asyncio has the task, `unregister_task` is called
      only while it has, and a finished task has been taken out. */
  lemma {:induction false} RegistrationFollowsCalls(events: seq<Event>)
    ensures var o := Run(FRESH, events);
            && o.state.registered == Listed(false, o.effects) && UnlistsListed(false, o.effects)
            && (o.state.finished ==> !Listed(false, o.effects))
  {
    hide Run, Listed, UnlistsListed;
    var pieces := RunPieces(FRESH, events);
    PiecesList(FRESH, pieces);
  }
}
