/** A cancel queued on the loop reaches its task: between its turns a task changes by the
    calls made on it and by nothing else, and what a queued cancel leaves behind is thrown
    at the task's next turn. */
module QueuedCancels {
  import opened Wrappers
  import opened Responses
  import opened TaskMachine
  import opened TaskProperties
  import opened TaskCancellation
  import opened TaskTurns
  import opened LoopMachine
  import opened Wakeups
  import opened LoopEffects
  import opened Deliveries

  // ----- What other code does to a task between its turns

  lemma {:induction false} OpsAppend(s: TaskState, a: seq<Op>, b: seq<Op>)
    ensures RunOps(s, a + b).state == RunOps(RunOps(s, a).state, b).state
    decreases |a|
  {
    hide OpOutcome;
    if a == [] {
      assert a + b == b;
    } else {
      assert (a + b)[1..] == a[1..] + b;
      OpsAppend(OpOutcome(s, a[0]).state, a[1..], b);
    }
  }

  /** The turn closes its coroutine: it has one and cannot enter it, or the coroutine
      yielded and cannot go on. */
  predicate Closing(s: TaskState, e: TurnEnv) {
    || ((s.coroutine.Some? || (!s.mustCancel && e.factory.Built? && e.contextCopied)) && !(e.enterOk && e.contextEntered))
    || (Advancing(s, e) && (e.result.StepYieldedNone? || e.result.StepYielded?) && !GoesOn(e))
  }

  /** The calls on `t` by the code that runs in the turn of another task, now `s`. */
  function TurnCalls(s: TaskState, e: Env, t: nat): seq<Op> {
    if s.finished then []
    else (if Advancing(s, e.turn) then OpsOn(t, e.acts) else []) + (if Closing(s, e.turn) then OpsOn(t, e.closeActs) else [])
  }

  /** The calls on `t` in one step that is not its turn. */
  function StepCalls(w: World, step: Wakeups.Step, t: nat): seq<Op> {
    if !step.Head? || w.ready == [] then []
    else
      match w.ready[0]
      case Wake(u, _) => if u < |w.tasks| then TurnCalls(w.tasks[u], step.e, t) else []
      case CancelCall(u) => if u == t then [Cancel(None, step.e.reply)] else []
      case UserCallback(_) => OpsOn(t, step.e.acts)
  }

  lemma {:induction false} ConcludedCalls(w: World, u: nat, p: Phase, e: Env, t: nat)
    requires u < |w.tasks| && t < |w.tasks| && t != u && !p.Advance?
    ensures t < |Concluded(w, u, p, e).tasks|
    ensures Concluded(w, u, p, e).tasks[t]
         == RunOps(w.tasks[t], if p.Abort? && p.state.coroutine.Some? then OpsOn(t, e.closeActs) else []).state
  {
    hide DoneAll, Installed, Finish, InternalError, OpsOn;
    InstalledOther(w, u, p.state, p.effects, e.settles, e.failing, t);
    InstalledTask(w, u, p.state, p.effects, e.settles, e.failing);
    if p.Abort? {
      var installed := Installed(w, u, p.state, p.effects, e.settles, e.failing);
      ActsProject(installed, e.closeActs, e.failing, t);
      var closed := if installed.tasks[u].coroutine.None? then installed else DoneAll(installed, e.closeActs, e.failing);
      var o := Finish(closed.tasks[u], InternalError(), Aborted);
      InstalledOther(closed, u, o.state, o.effects, e.settles, e.failing, t);
    }
  }

  /** Where the start of a turn leads, case by case. */
  lemma {:induction false} BeginLeads(s: TaskState, e: TurnEnv)
    requires Rep(s) && !s.finished
    ensures var p := Begin(s, e);
            && (p.Advance? <==> Advancing(s, e))
            && (p.Abort? && p.state.coroutine.Some? <==> !Advancing(s, e) && Closing(s, e))
            && (p.Advance? ==> MidTurn(p.state) && p.state.coroutine.Some?)
  {
    hide Begin, Rep, Reports;
    BeginAdvances(s, e);
    BeginReports(s, e);
    BeginKeepsRep(s, e);
    if Begin(s, e).Abort? { StillStarted(s, e); }
  }

  lemma {:induction false} SettleLeads(s: TaskState, e: TurnEnv)
    requires !s.finished && s.coroutine.Some?
    ensures var p := Settle(s, e);
            p.Abort? && p.state.coroutine.Some? <==> (e.result.StepYieldedNone? || e.result.StepYielded?) && !GoesOn(e)
  {
    if e.result.StepYieldedNone? || e.result.StepYielded? { YieldSettles(s, e); }
    hide Finish, ReturnResponse, InternalError, Park, GoesOn;
  }

  lemma {:induction false} OtherTurnCalls(w: World, u: nat, e: Env, t: nat)
    requires u < |w.tasks| && t < |w.tasks| && t != u && Rep(w.tasks[u])
    ensures t < |TurnIn(w, u, e).tasks|
    ensures TurnIn(w, u, e).tasks[t] == RunOps(w.tasks[t], TurnCalls(w.tasks[u], e, t)).state
  {
    hide Rep, DoneAll, Installed, Concluded, Begin, Settle, RunOps, OpsOn;
    var s := w.tasks[u];
    var p := Begin(s, e.turn);
    if s.finished {
      NothingInstalled(w, u, e);
      NoOps(w.tasks[t]);
    } else {
      BeginLeads(s, e.turn);
      if !p.Advance? {
        ConcludedCalls(w, u, p, e, t);
        assert TurnCalls(s, e, t) == if Closing(s, e.turn) then OpsOn(t, e.closeActs) else [];
      } else {
        var entered := Installed(w, u, p.state, p.effects, e.settles, e.failing);
        InstalledOther(w, u, p.state, p.effects, e.settles, e.failing, t);
        InstalledTask(w, u, p.state, p.effects, e.settles, e.failing);
        var ran := DoneAll(entered, e.acts, e.failing);
        ActsProject(entered, e.acts, e.failing, t);
        ActsProject(entered, e.acts, e.failing, u);
        OpsKeepRep(p.state, OpsOn(u, e.acts));
        SameReplies(ran.tasks[u], u, e);
        SettleLeads(ran.tasks[u], e.turn);
        ConcludedCalls(ran, u, Settle(ran.tasks[u], e.turn), e, t);
        OpsAppend(w.tasks[t], OpsOn(t, e.acts), if Closing(s, e.turn) then OpsOn(t, e.closeActs) else []);
      }
    }
  }

  lemma {:induction false} NoOps(s: TaskState)
    ensures RunOps(s, []).state == s
  {
  }

  lemma {:induction false} CallProjects(w: World, u: nat, op: Op, settles: Settling, failing: set<Ref>, t: nat)
    requires t < |w.tasks|
    ensures LoopMachine.Done(w, OnTask(u, op, settles), failing).tasks[t] == RunOps(w.tasks[t], if u == t then [op] else []).state
  {
    hide OpOutcome, AppliedAll;
    assert [op][1..] == [];
  }

  /** A step that is not its turn changes a task by the calls made on it, and no more. */
  lemma {:induction false} StepChanges(w: World, step: Wakeups.Step, t: nat)
    requires Enabled(w, step) && !TurnOf(w, step, t) && t < |w.tasks| && (forall u :: 0 <= u < |w.tasks| ==> Rep(w.tasks[u]))
    ensures t < |Next(w, step).tasks| && Next(w, step).tasks[t] == RunOps(w.tasks[t], StepCalls(w, step, t)).state
  {
    hide Rep, TurnIn, DoneAll, LoopMachine.Done, RunOps, TurnCalls, OpsOn;
    NoOps(w.tasks[t]);
    if step.Head? {
      var e, popped := step.e, w.(ready := w.ready[1..]);
      match w.ready[0] {
        case Wake(u, future) =>
          if u < |w.tasks| {
            OtherTurnCalls(popped, u, WokenBy(w, future, e), t);
            WakeAside(w.tasks[u], w, future, e, t);
          }
        case CancelCall(u) => CallProjects(popped, u, Cancel(None, e.reply), e.settles, e.failing, t);
        case UserCallback(_) => ActsProject(popped, e.acts, e.failing, t);
      }
    }
  }

  lemma {:induction false} WakeAside(s: TaskState, w: World, future: Option<nat>, e: Env, t: nat)
    ensures TurnCalls(s, WokenBy(w, future, e), t) == TurnCalls(s, e, t)
  {
    hide OpsOn;
  }

  /** The calls on `t` from state `a` of a run to state `b`. */
  function CallsOver(run: seq<World>, steps: seq<Wakeups.Step>, a: nat, b: nat, t: nat): seq<Op>
    requires a <= b <= |steps| < |run|
  {
    if a == b then [] else CallsOver(run, steps, a, b - 1, t) + StepCalls(run[b - 1], steps[b - 1], t)
  }

  /** Between its turns a task changes by the calls made on it, in order, and by nothing
      else. */
  lemma {:induction false} ChangesByCalls(run: seq<World>, steps: seq<Wakeups.Step>, a: nat, b: nat, t: nat)
    requires IsRun(run, steps) && run[0] == EMPTY && a <= b < |run| && t < |run[a].tasks|
    requires forall k :: a <= k < b ==> !TurnOf(run[k], steps[k], t)
    ensures t < |run[b].tasks| && run[b].tasks[t] == RunOps(run[a].tasks[t], CallsOver(run, steps, a, b, t)).state
    decreases b
  {
    hide Next, Enabled, Wakeups.Inv, TurnOf, Rep, RunOps, StepCalls;
    NoOps(run[a].tasks[t]);
    if b > a {
      ChangesByCalls(run, steps, a, b - 1, t);
      EmptyInv();
      RunKeeps(run, steps, b - 1);
      var w := run[b - 1];
      forall u | 0 <= u < |w.tasks| ensures Rep(w.tasks[u]) { InvRep(w, u, None); }
      StepChanges(run[b - 1], steps[b - 1], t);
      OpsAppend(run[a].tasks[t], CallsOver(run, steps, a, b - 1, t), StepCalls(run[b - 1], steps[b - 1], t));
    }
  }

  predicate NoCancel(ops: seq<Op>) {
    forall i :: 0 <= i < |ops| ==> !ops[i].Cancel?
  }

  lemma {:induction false} NotAsked(s: TaskState, ops: seq<Op>)
    requires !s.mustCancel && NoCancel(ops)
    ensures !RunOps(s, ops).state.mustCancel
    decreases |ops|
  {
    hide Without, Drops, Gone;
    if ops != [] { NotAsked(OpOutcome(s, ops[0]).state, ops[1..]); }
  }

  /** A task that nobody cancels while it waits gets just what its future ended with: the
      next turn, if it can advance, throws that error, or sends if there is none. */
  lemma {:induction false} UncancelledGetsResult(run: seq<World>, steps: seq<Wakeups.Step>, j: nat, i: nat, t: nat, f: nat)
    requires IsRun(run, steps) && run[0] == EMPTY && j <= i < |steps| && t < |run[j].tasks|
    requires !run[j].tasks[t].finished && run[j].tasks[t].waitingOn == Some(f) && !run[j].tasks[t].mustCancel
    requires TurnOf(run[i], steps[i], t) && forall k :: j <= k < i ==> !TurnOf(run[k], steps[k], t)
    requires NoCancel(CallsOver(run, steps, j, i, t))
    ensures f < |run[i].futures| && run[i].futures[f].ending.Some? && t < |run[i].tasks|
    ensures var s, env, error := run[i].tasks[t], TurnEnvOf(run[i], steps[i], t), run[i].futures[f].ending.value.error;
            Advancing(s, env) ==> Advances(Turn(s, env).effects) == [if error.Some? then Throw(error.value) else Send]
  {
    hide Next, RunOps, CallsOver, Turn, TurnEnvOf, Advances, Advancing, NoCancel;
    FutureDelivers(run, steps, j, i, t, f);
    ChangesByCalls(run, steps, j, i, t);
    NotAsked(run[j].tasks[t], CallsOver(run, steps, j, i, t));
  }

  /** A request that nobody cancels before its task's first turn is started by that turn: the
      handler is called, and if the turn can advance the coroutine gets a plain send. */
  lemma {:induction false} UncancelledIsStarted(run: seq<World>, steps: seq<Wakeups.Step>, a: nat, i: nat, t: nat)
    requires IsRun(run, steps) && run[0] == EMPTY && a < i < |steps| && steps[a].Arrive? && t == |run[a].tasks|
    requires TurnOf(run[i], steps[i], t) && forall k :: a < k < i ==> !TurnOf(run[k], steps[k], t)
    requires NoCancel(CallsOver(run, steps, a + 1, i, t))
    ensures t < |run[i].tasks| && !run[i].tasks[t].finished && run[i].tasks[t].coroutine.None?
    ensures var s, env := run[i].tasks[t], TurnEnvOf(run[i], steps[i], t);
            && env.wake.Bare? && CallHandler in Turn(s, env).effects
            && (Advancing(s, env) ==> Advances(Turn(s, env).effects) == [Send])
  {
    ArrivesFresh(run[a], steps[a]);
    hide Next, RunOps, CallsOver, Turn, Advances, Advancing, NoCancel, Rep, InQueue, FRESH;
    ChangesByCalls(run, steps, a + 1, i, t);
    WaitsUntilItsTurn(run, steps, a + 1, i, t);
    NotAsked(run[a + 1].tasks[t], CallsOver(run, steps, a + 1, i, t));
    EntriesTell(run, steps, i, t);
    var s, env := run[i].tasks[t], TurnEnvOf(run[i], steps[i], t);
    HandlerCalled(s, env);
    TurnAdvancesExactly(s, env);
  }

  /** A task arrives unstarted, waiting on nothing, with nothing pending against it. */
  lemma {:induction false} ArrivesFresh(w: World, step: Wakeups.Step)
    requires step.Arrive?
    ensures var t, r := |w.tasks|, Next(w, step);
            && |r.tasks| == t + 1 && !r.tasks[t].finished && r.tasks[t].coroutine.None? && r.tasks[t].waitingOn.None?
            && r.tasks[t].deferredThrow.None? && !r.tasks[t].mustCancel && r.tasks[t].cancelRequests == 0
  {
  }

  lemma {:induction false} HandlerCalled(s: TaskState, e: TurnEnv)
    requires Rep(s) && !s.finished && s.coroutine.None? && !s.mustCancel
    ensures CallHandler in Turn(s, e).effects
  {
    BeginAdvances(s, e);
    hide Begin, Settle, Abandon, RunOps;
    assert forall x :: x in Begin(s, e).effects ==> x in Turn(s, e).effects;
  }

  // ----- A queued cancel

  /** A queued cancel runs once the callbacks queued before it have. */
  lemma {:induction false} QueuedCancelRuns(run: seq<World>, steps: seq<Wakeups.Step>, q: nat, c: nat, t: nat)
    requires IsRun(run, steps) && q < c < |run| && steps[q] == QueueCancel(t) && Heads(steps, q + 1, c) == |run[q].ready|
    ensures run[c].ready != [] && run[c].ready[0] == CancelCall(t)
  {
    QueuedLast(run[q], steps[q], t);
    hide Heads, Next, Enabled;
    EntryMovesUp(run, steps, q + 1, c, |run[q].ready|);
  }

  lemma {:induction false} QueuedLast(w: World, step: Wakeups.Step, t: nat)
    requires step == QueueCancel(t)
    ensures Enabled(w, step) && Next(w, step).ready == w.ready + [CancelCall(t)]
  {
  }

  /** The future the task waits on takes the cancel over, and none is owed besides. */
  predicate AbsorbedBy(s: TaskState, reply: CancelReply) {
    s.waitingOn.Some? && reply.Absorbed? && !s.mustCancel
  }

  /** When the loop runs a queued cancel of an unfinished task: the request is counted, the
      message is none, a cancellation is owed unless the awaited future absorbed it, and
      a pending future that absorbs it at once ends cancelled. Otherwise no future and no
      queue entry changes. */
  lemma {:induction false} QueuedCancelLands(w: World, step: Wakeups.Step, t: nat)
    requires Enabled(w, step) && step.Head? && w.ready[0] == CancelCall(t) && t < |w.tasks| && !w.tasks[t].finished
    ensures t < |Next(w, step).tasks|
    ensures var s, r := w.tasks[t], Next(w, step).tasks[t];
            && r.cancelRequests == (s.cancelRequests + 1) % U32 && r.cancelMessage == None
            && (r.mustCancel <==> !AbsorbedBy(s, step.e.reply))
            && r == s.(cancelRequests := r.cancelRequests, cancelMessage := None, mustCancel := r.mustCancel)
    ensures var f, settles := w.tasks[t].waitingOn, step.e.settles;
            f.Some? && f.value < |w.futures| && w.futures[f.value].ending.None? && step.e.reply.Absorbed? && settles.AtOnce? ==>
              f.value < |Next(w, step).futures| && Next(w, step).futures[f.value].ending == Some(Cancellation(settles.message))
    ensures !(w.tasks[t].waitingOn.Some? && step.e.reply.Absorbed? && step.e.settles.AtOnce?) ==>
              Next(w, step).futures == w.futures && Next(w, step).ready == w.ready[1..]
  {
    hide Next, AbsorbedBy;
    LandsOnTask(w, step, t);
    LandsOnFuture(w, step, t);
  }

  lemma {:induction false} LandsOnTask(w: World, step: Wakeups.Step, t: nat)
    requires Enabled(w, step) && step.Head? && w.ready[0] == CancelCall(t) && t < |w.tasks| && !w.tasks[t].finished
    ensures t < |Next(w, step).tasks|
    ensures var s, r := w.tasks[t], Next(w, step).tasks[t];
            && r.cancelRequests == (s.cancelRequests + 1) % U32 && r.cancelMessage == None
            && (r.mustCancel <==> !AbsorbedBy(s, step.e.reply))
            && r == s.(cancelRequests := r.cancelRequests, cancelMessage := None, mustCancel := r.mustCancel)
  {
    hide LoopMachine.Done, RunOps, OpOutcome, TurnIn, DoneAll;
    var s, e, popped := w.tasks[t], step.e, w.(ready := w.ready[1..]);
    CallProjects(popped, t, Cancel(None, e.reply), e.settles, e.failing, t);
    OneOp(s, Cancel(None, e.reply));
    CancelExactly(s, None, e.reply);
  }

  lemma {:induction false} LandsOnFuture(w: World, step: Wakeups.Step, t: nat)
    requires Enabled(w, step) && step.Head? && w.ready[0] == CancelCall(t) && t < |w.tasks| && !w.tasks[t].finished
    ensures var f, e := w.tasks[t].waitingOn, step.e;
            if f.Some? && e.reply.Absorbed? && e.settles.AtOnce? then
              f.value < |w.futures| && w.futures[f.value].ending.None? ==>
                f.value < |Next(w, step).futures| && Next(w, step).futures[f.value].ending == Some(Cancellation(e.settles.message))
            else Next(w, step).futures == w.futures && Next(w, step).ready == w.ready[1..]
  {
    hide LoopMachine.Done;
    var e, popped, f := step.e, w.(ready := w.ready[1..]), w.tasks[t].waitingOn;
    if !(f.Some? && e.reply.Absorbed? && e.settles.AtOnce?) {
      CancelAside(popped, t, e);
    } else if f.value < |w.futures| && w.futures[f.value].ending.None? {
      CancelLands(popped, t, None, e.settles.message, e.failing);
    }
  }

  lemma {:induction false} CancelAside(w: World, t: nat, e: Env)
    requires t < |w.tasks| && !w.tasks[t].finished
    requires !(w.tasks[t].waitingOn.Some? && e.reply.Absorbed? && e.settles.AtOnce?)
    ensures var r := LoopMachine.Done(w, OnTask(t, Cancel(None, e.reply), e.settles), e.failing);
            r.futures == w.futures && r.ready == w.ready
  {
    var o := OpOutcome(w.tasks[t], Cancel(None, e.reply));
    var moved := w.(tasks := w.tasks[t := o.state]);
    if w.tasks[t].waitingOn.Some? {
      var f := w.tasks[t].waitingOn.value;
      assert o.effects == [CancelAsked] + [CancelFuture(f, e.reply)];
      AppliedSplit(moved, t, [CancelAsked], [CancelFuture(f, e.reply)], e.settles, e.failing);
      OneEffect(moved, t, CancelAsked, e);
      OneEffect(moved, t, CancelFuture(f, e.reply), e);
    } else {
      OneEffect(moved, t, CancelAsked, e);
    }
  }

  lemma {:induction false} OneOp(s: TaskState, op: Op)
    ensures RunOps(s, [op]).state == OpOutcome(s, op).state
  {
    hide OpOutcome;
    assert [op][1..] == [];
  }

  /** The turn delivers a cancellation: an unstarted task ends cancelled without its handler
      being called, a started one has `CancelledError` thrown into it, or cannot be advanced
      and is finished. */
  predicate Delivers(s: TaskState, o: Outcome) {
    if s.coroutine.None? then o.state.finished && o.state.finishedCancelled && CallHandler !in o.effects && Advances(o.effects) == []
    else (o.state.finished && Advances(o.effects) == []) || ThrowsCancellation(o.effects)
  }

  /** A cancel that has run and was not absorbed is delivered by the task's next turn, unless
      an `uncancel` brought the count to zero meanwhile. */
  lemma {:induction false} OwedCancelDelivered(run: seq<World>, steps: seq<Wakeups.Step>, c: nat, i: nat, t: nat)
    requires IsRun(run, steps) && run[0] == EMPTY && c < i < |steps|
    requires steps[c].Head? && run[c].ready[0] == CancelCall(t) && t < |run[c].tasks| && !run[c].tasks[t].finished
    requires !AbsorbedBy(run[c].tasks[t], steps[c].e.reply)
    requires TurnOf(run[i], steps[i], t) && forall k :: c < k < i ==> !TurnOf(run[k], steps[k], t)
    ensures t < |run[c + 1].tasks| && t < |run[i].tasks| && !run[i].tasks[t].finished
    ensures || ReachesZero(run[c + 1].tasks[t], CallsOver(run, steps, c + 1, i, t))
            || Delivers(run[i].tasks[t], Turn(run[i].tasks[t], TurnEnvOf(run[i], steps[i], t)))
  {
    hide Next, RunOps, ReachesZero, CallsOver, Turn, Rep, TurnEnvOf, Wakeups.Inv, Advances, ThrowsCancellation, AbsorbedBy;
    QueuedCancelLands(run[c], steps[c], t);
    ChangesByCalls(run, steps, c + 1, i, t);
    WaitsUntilItsTurn(run, steps, c + 1, i, t);
    var calls := CallsOver(run, steps, c + 1, i, t);
    if !ReachesZero(run[c + 1].tasks[t], calls) {
      OwedUntilZero(run[c + 1].tasks[t], calls);
      EntriesTell(run, steps, i, t);
      NextTurnDelivers(run[i].tasks[t], TurnEnvOf(run[i], steps[i], t));
    }
  }

  /** A cancel that the awaited future absorbed: that future wakes the task's next turn, and
      if it ended there and then, or anyhow cancelled, the turn delivers. */
  lemma {:induction false} AbsorbedCancelDelivered(run: seq<World>, steps: seq<Wakeups.Step>, c: nat, i: nat, t: nat)
    requires IsRun(run, steps) && run[0] == EMPTY && c < i < |steps|
    requires steps[c].Head? && run[c].ready[0] == CancelCall(t) && t < |run[c].tasks| && !run[c].tasks[t].finished
    requires AbsorbedBy(run[c].tasks[t], steps[c].e.reply)
    requires TurnOf(run[i], steps[i], t) && forall k :: c < k < i ==> !TurnOf(run[k], steps[k], t)
    ensures t < |run[i].tasks| && !run[i].tasks[t].finished
    ensures var f := run[c].tasks[t].waitingOn.value;
            && run[i].ready[0].future == Some(f) && f < |run[c].futures| && f < |run[i].futures| && run[i].futures[f].ending.Some?
            && (steps[c].e.settles.AtOnce? && run[c].futures[f].ending.None? ==>
                  run[i].futures[f].ending == Some(Cancellation(steps[c].e.settles.message)))
            && var error := run[i].futures[f].ending.value.error;
               (error.Some? && error.value.CancelledError? ==>
                  Delivers(run[i].tasks[t], Turn(run[i].tasks[t], TurnEnvOf(run[i], steps[i], t))))
  {
    hide Next, Turn, Rep, TurnEnvOf, Advances, ThrowsCancellation, Advancing, Times, InQueue;
    var f := run[c].tasks[t].waitingOn.value;
    assert !TurnOf(run[c], steps[c], t);
    FutureDelivers(run, steps, c, i, t, f);
    AwaitedCancelIsThrown(run, steps, c, i, t, f);
    ExactlyOneWake(run, steps, c, t);
    QueuedCancelLands(run[c], steps[c], t);
    if steps[c].e.settles.AtOnce? && run[c].futures[f].ending.None? {
      EndingStays(run, steps, c + 1, i, f);
    }
  }

  /** Every queued cancel that comes to run on an unfinished task: the task's next turn
      throws `CancelledError`, or ends the task without advancing it, or is entered with the
      future that absorbed the cancel and delivers what that future ended with; unless an
      `uncancel` brings the count to zero first. */
  lemma {:induction false} QueuedCancelIsDelivered(run: seq<World>, steps: seq<Wakeups.Step>, q: nat, c: nat, i: nat, t: nat)
    requires IsRun(run, steps) && run[0] == EMPTY && q < c < i < |steps|
    requires steps[q] == QueueCancel(t) && steps[c].Head? && Heads(steps, q + 1, c) == |run[q].ready|
    requires t < |run[c].tasks| && !run[c].tasks[t].finished
    requires TurnOf(run[i], steps[i], t) && forall k :: c < k < i ==> !TurnOf(run[k], steps[k], t)
    ensures run[c].ready[0] == CancelCall(t)
    ensures t < |run[c + 1].tasks| && t < |run[i].tasks| && !run[i].tasks[t].finished
    ensures var s := run[c].tasks[t];
            var delivered := Delivers(run[i].tasks[t], Turn(run[i].tasks[t], TurnEnvOf(run[i], steps[i], t)));
            if !AbsorbedBy(s, steps[c].e.reply) then
              delivered || ReachesZero(run[c + 1].tasks[t], CallsOver(run, steps, c + 1, i, t))
            else
              && run[i].ready[0].future == s.waitingOn
              && s.waitingOn.value < |run[c].futures|
              && (steps[c].e.settles.AtOnce? && run[c].futures[s.waitingOn.value].ending.None? ==> delivered)
  {
    hide Next, Turn, TurnEnvOf, Delivers, Heads, CallsOver, ReachesZero, Times, InQueue;
    QueuedCancelRuns(run, steps, q, c, t);
    QueuedCancelLands(run[c], steps[c], t);
    if !AbsorbedBy(run[c].tasks[t], steps[c].e.reply) {
      OwedCancelDelivered(run, steps, c, i, t);
    } else {
      AbsorbedCancelDelivered(run, steps, c, i, t);
    }
  }
}
