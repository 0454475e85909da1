/** What a turn is entered with: a queue entry carries the future its task waits on, so
    a deferred error never meets a wake's error, and a cancellation that a future has
    absorbed reaches the coroutine when that future ends cancelled. */
module Deliveries {
  import opened Wrappers
  import opened Responses
  import opened TaskMachine
  import opened TaskProperties
  import opened TaskCancellation
  import opened TaskTurns
  import opened LoopMachine
  import opened Wakeups
  import opened Progress
  import opened LoopEffects

  // ----- A queue entry and its task

  /** In every run the queue entries of an unfinished task name what it waits on:
      nothing, or one future, which has ended. */
  lemma {:induction false} EntriesTell(run: seq<World>, steps: seq<Wakeups.Step>, i: nat, t: nat)
    requires IsRun(run, steps) && run[0] == EMPTY && i < |run| && t < |run[i].tasks| && !run[i].tasks[t].finished
    ensures Tells(run[i], t, run[i].tasks[t].waitingOn) && Rep(run[i].tasks[t])
    ensures run[i].tasks[t].waitingOn.None? ==> InQueue(run[i].ready, t) == 1
  {
    hide Next, Enabled, Rep, Times, InQueue, Tells;
    EmptyInv();
    RunKeeps(run, steps, i);
    assert TaskOk(run[i], t, None);
  }

  /** An unfinished task that holds a deferred error waits on nothing, and its one wake
      is a bare queue entry: no future can wake it. */
  lemma {:induction false} DeferredWakesBare(run: seq<World>, steps: seq<Wakeups.Step>, i: nat, t: nat, k: nat)
    requires IsRun(run, steps) && run[0] == EMPTY && i < |run| && t < |run[i].tasks| && !run[i].tasks[t].finished
    requires run[i].tasks[t].deferredThrow.Some?
    ensures run[i].tasks[t].waitingOn.None? && InQueue(run[i].ready, t) == 1
    ensures k < |run[i].ready| && run[i].ready[k].Wake? && run[i].ready[k].task == t ==> run[i].ready[k].future.None?
  {
    hide IsRun, InQueue;
    EntriesTell(run, steps, i, t);
  }

  // ----- A future delivers

  /** The step is a turn of `t`. */
  predicate TurnOf(w: World, step: Wakeups.Step, t: nat) {
    step.Head? && w.ready != [] && w.ready[0].Wake? && w.ready[0].task == t
  }

  lemma {:induction false} InstalledOther(w: World, u: nat, state: TaskState, effects: seq<Effect>, settles: Settling, failing: set<Ref>, t: nat)
    requires u < |w.tasks| && t < |w.tasks| && t != u
    ensures Installed(w, u, state, effects, settles, failing).tasks[t] == w.tasks[t]
    ensures |Installed(w, u, state, effects, settles, failing).tasks| == |w.tasks|
  {
  }

  /** Python code leaves alone how far a task is. */
  lemma {:induction false} ActsLeave(w: World, acts: seq<Act>, failing: set<Ref>, t: nat)
    requires t < |w.tasks| && Rep(w.tasks[t])
    ensures Rep(DoneAll(w, acts, failing).tasks[t]) && SameProgress(w.tasks[t], DoneAll(w, acts, failing).tasks[t])
  {
    hide Rep, DoneAll, RunOps;
    ActsProject(w, acts, failing, t);
    OpsKeepRep(w.tasks[t], OpsOn(t, acts));
  }

  lemma {:induction false} ConcludedLeaves(w: World, u: nat, p: Phase, e: Env, t: nat)
    requires u < |w.tasks| && t < |w.tasks| && t != u && !p.Advance? && Rep(w.tasks[t])
    ensures |Concluded(w, u, p, e).tasks| == |w.tasks| && SameProgress(w.tasks[t], Concluded(w, u, p, e).tasks[t])
  {
    hide Rep, DoneAll, Installed, Finish, InternalError;
    InstalledOther(w, u, p.state, p.effects, e.settles, e.failing, t);
    InstalledTask(w, u, p.state, p.effects, e.settles, e.failing);
    if p.Abort? {
      var installed := Installed(w, u, p.state, p.effects, e.settles, e.failing);
      ActsLeave(installed, e.closeActs, e.failing, t);
      var closed := if installed.tasks[u].coroutine.None? then installed else DoneAll(installed, e.closeActs, e.failing);
      var o := Finish(closed.tasks[u], InternalError(), Aborted);
      InstalledOther(closed, u, o.state, o.effects, e.settles, e.failing, t);
    }
  }

  /** Another task's turn leaves alone how far `t` is. */
  lemma {:induction false} OtherTurnLeaves(w: World, u: nat, e: Env, t: nat)
    requires u < |w.tasks| && t < |w.tasks| && t != u && Rep(w.tasks[t])
    ensures |TurnIn(w, u, e).tasks| == |w.tasks| && SameProgress(w.tasks[t], TurnIn(w, u, e).tasks[t])
  {
    hide Rep, DoneAll, Installed, Concluded, Begin, Settle;
    var p := Begin(w.tasks[u], e.turn);
    if !p.Advance? {
      ConcludedLeaves(w, u, p, e, t);
    } else {
      var entered := Installed(w, u, p.state, p.effects, e.settles, e.failing);
      InstalledOther(w, u, p.state, p.effects, e.settles, e.failing, t);
      ActsLeave(entered, e.acts, e.failing, t);
      var ran := DoneAll(entered, e.acts, e.failing);
      SameReplies(ran.tasks[u], u, e);
      ConcludedLeaves(ran, u, Settle(ran.tasks[u], e.turn), e, t);
    }
  }

  lemma {:induction false} CallLeaves(w: World, u: nat, op: Op, settles: Settling, failing: set<Ref>, t: nat)
    requires t < |w.tasks| && Rep(w.tasks[t])
    ensures SameProgress(w.tasks[t], LoopMachine.Done(w, OnTask(u, op, settles), failing).tasks[t])
  {
    hide Rep, OpOutcome, Installed;
    if u < |w.tasks| {
      var o := OpOutcome(w.tasks[u], op);
      InstalledTask(w, u, o.state, o.effects, settles, failing);
      if u == t { OpKeepsRep(w.tasks[t], op); } else { InstalledOther(w, u, o.state, o.effects, settles, failing, t); }
    }
  }

  lemma {:induction false} StepLeaves(w: World, step: Wakeups.Step, t: nat)
    requires Enabled(w, step) && !TurnOf(w, step, t) && t < |w.tasks| && Rep(w.tasks[t])
    ensures t < |Next(w, step).tasks| && SameProgress(w.tasks[t], Next(w, step).tasks[t])
  {
    hide Rep, TurnIn, DoneAll, LoopMachine.Done;
    if step.Head? {
      var e, popped := step.e, w.(ready := w.ready[1..]);
      match w.ready[0] {
        case Wake(u, future) => if u < |w.tasks| { OtherTurnLeaves(popped, u, WokenBy(w, future, e), t); }
        case CancelCall(u) => CallLeaves(popped, u, Cancel(None, e.reply), e.settles, e.failing, t);
        case UserCallback(_) => ActsLeave(popped, e.acts, e.failing, t);
      }
    }
  }

  /** Until its next turn an unfinished task stays unfinished and waits as it did. */
  lemma {:induction false} WaitsUntilItsTurn(run: seq<World>, steps: seq<Wakeups.Step>, j: nat, i: nat, t: nat)
    requires IsRun(run, steps) && run[0] == EMPTY && j <= i < |run| && t < |run[j].tasks|
    requires forall k :: j <= k < i ==> !TurnOf(run[k], steps[k], t)
    ensures t < |run[i].tasks| && SameProgress(run[j].tasks[t], run[i].tasks[t])
    decreases i
  {
    hide Next, Enabled, Wakeups.Inv, TurnOf, Rep;
    if i > j {
      WaitsUntilItsTurn(run, steps, j, i - 1, t);
      EmptyInv();
      RunKeeps(run, steps, i - 1);
      InvRep(run[i - 1], t, None);
      StepLeaves(run[i - 1], steps[i - 1], t);
    }
  }

  /** Cancelling a task that waits on a pending future, absorbed at once, ends the future
      cancelled and leaves the task waiting on it. */
  lemma {:induction false} CancelLands(w: World, t: nat, message: Option<Ref>, text: Option<Ref>, failing: set<Ref>)
    requires t < |w.tasks| && !w.tasks[t].finished && w.tasks[t].waitingOn.Some?
    requires w.tasks[t].waitingOn.value < |w.futures| && w.futures[w.tasks[t].waitingOn.value].ending.None?
    ensures var f := w.tasks[t].waitingOn.value;
            var r := LoopMachine.Done(w, OnTask(t, Cancel(message, Absorbed), AtOnce(text)), failing);
            && f < |r.futures| && r.futures[f].ending == Some(Cancellation(text))
            && r.tasks[t].waitingOn == Some(f) && !r.tasks[t].finished
  {
    var f, e := w.tasks[t].waitingOn.value, Raising(0).(settles := AtOnce(text), failing := failing);
    var o := OpOutcome(w.tasks[t], Cancel(message, Absorbed));
    var moved := w.(tasks := w.tasks[t := o.state]);
    assert o.effects == [CancelAsked] + [CancelFuture(f, Absorbed)];
    AppliedSplit(moved, t, [CancelAsked], [CancelFuture(f, Absorbed)], AtOnce(text), failing);
    OneEffect(moved, t, CancelAsked, e);
    OneEffect(moved, t, CancelFuture(f, Absorbed), e);
  }

  lemma {:induction false} TurnReached(w: World, step: Wakeups.Step, t: nat)
    requires Enabled(w, step) && TurnOf(w, step, t) && t < |w.tasks|
    ensures t < |Next(w, step).tasks| && Next(w, step).tasks[t] == Turn(w.tasks[t], TurnEnvOf(w, step, t)).state
  {
    hide Turn, TurnIn;
    TurnProjects(w.(ready := w.ready[1..]), t, WokenBy(w, w.ready[0].future, step.e));
  }

  /** What the turn of `t` that the step runs is answered by Python, its wake included. */
  function TurnEnvOf(w: World, step: Wakeups.Step, t: nat): TurnEnv
    requires TurnOf(w, step, t)
  {
    TaskEnv(t, WokenBy(w, w.ready[0].future, step.e))
  }

  /** A turn that does not advance finishes the task. */
  lemma {:induction false} StuckFinishes(s: TaskState, e: TurnEnv)
    requires Rep(s) && !s.finished && !Advancing(s, e)
    ensures Turn(s, e).state.finished && Advances(Turn(s, e).effects) == []
  {
    TurnReportsExactly(s, e);
    TurnAdvancesExactly(s, e);
    hide Rep, Turn, Reports, Advances;
  }

  /** The future delivers: an unfinished task that waits on `f`, whatever happens until its
      next turn, is woken then by `f`, which has ended. If the turn can advance it throws
      what `f` ended with, or sends if that was no error; only a cancellation that is owed,
      and is not what `f` ended with, goes first. If it cannot advance the task is finished. */
  lemma {:induction false} FutureDelivers(run: seq<World>, steps: seq<Wakeups.Step>, j: nat, i: nat, t: nat, f: nat)
    requires IsRun(run, steps) && run[0] == EMPTY && j <= i < |steps| && t < |run[j].tasks|
    requires !run[j].tasks[t].finished && run[j].tasks[t].waitingOn == Some(f)
    requires TurnOf(run[i], steps[i], t) && forall k :: j <= k < i ==> !TurnOf(run[k], steps[k], t)
    ensures run[i].ready[0].future == Some(f) && f < |run[i].futures| && run[i].futures[f].ending.Some?
    ensures t < |run[i].tasks| && t < |run[i + 1].tasks| && !run[i].tasks[t].finished && run[i].tasks[t].coroutine.Some?
    ensures var error, s := run[i].futures[f].ending.value.error, run[i].tasks[t];
            var env := TurnEnvOf(run[i], steps[i], t);
            var o := Turn(s, env);
            && env.wake == Woken(error) && run[i + 1].tasks[t] == o.state
            && (!Advancing(s, env) ==> o.state.finished && Advances(o.effects) == [])
            && (Advancing(s, env) && !s.mustCancel ==> Advances(o.effects) == [if error.Some? then Throw(error.value) else Send])
            && (Advancing(s, env) && s.mustCancel ==>
                  Advances(o.effects) == [Throw(if error.Some? && error.value.CancelledError? then error.value
                                                else CancelledError(s.cancelMessage))])
  {
    hide Turn, Advances, Rep, Reports, Advancing;
    WaitsUntilItsTurn(run, steps, j, i, t);
    EntriesTell(run, steps, i, t);
    TurnReached(run[i], steps[i], t);
    var s, env := run[i].tasks[t], TurnEnvOf(run[i], steps[i], t);
    WaitingIsStarted(s);
    TurnAdvancesExactly(s, env);
    if !Advancing(s, env) { StuckFinishes(s, env); }
    var error := run[i].futures[f].ending.value.error;
    if error.Some? { assert WokenWith(env, error.value); }
  }

  /** In particular, if `f` ended cancelled the turn throws `CancelledError` into the
      coroutine, or finishes without advancing. */
  lemma {:induction false} AwaitedCancelIsThrown(run: seq<World>, steps: seq<Wakeups.Step>, j: nat, i: nat, t: nat, f: nat)
    requires IsRun(run, steps) && run[0] == EMPTY && j <= i < |steps| && t < |run[j].tasks|
    requires !run[j].tasks[t].finished && run[j].tasks[t].waitingOn == Some(f)
    requires TurnOf(run[i], steps[i], t) && forall k :: j <= k < i ==> !TurnOf(run[k], steps[k], t)
    ensures f < |run[i].futures| && run[i].futures[f].ending.Some? && t < |run[i].tasks|
    ensures var error := run[i].futures[f].ending.value.error;
            var o := Turn(run[i].tasks[t], TurnEnvOf(run[i], steps[i], t));
            error.Some? && error.value.CancelledError? ==>
              (o.state.finished && Advances(o.effects) == []) || ThrowsCancellation(o.effects)
  {
    FutureDelivers(run, steps, j, i, t, f);
    hide Turn, Advances, Advancing, IsRun, TurnOf, TurnEnvOf;
  }

  /** A deferred error is thrown by the next turn, bare as that is, unless a cancellation
      goes first; or the turn cannot advance and the task is finished. */
  lemma {:induction false} DeferredIsThrown(run: seq<World>, steps: seq<Wakeups.Step>, j: nat, i: nat, t: nat, x: Exc)
    requires IsRun(run, steps) && run[0] == EMPTY && j <= i < |steps| && t < |run[j].tasks|
    requires !run[j].tasks[t].finished && run[j].tasks[t].deferredThrow == Some(x)
    requires TurnOf(run[i], steps[i], t) && forall k :: j <= k < i ==> !TurnOf(run[k], steps[k], t)
    ensures t < |run[i].tasks| && !run[i].tasks[t].finished
    ensures var s := run[i].tasks[t];
            var env := TurnEnvOf(run[i], steps[i], t);
            var o := Turn(s, env);
            && env.wake.Bare?
            && (!Advancing(s, env) ==> o.state.finished && Advances(o.effects) == [])
            && (Advancing(s, env) ==>
                  Advances(o.effects) == [Throw(if s.mustCancel && !x.CancelledError? then CancelledError(s.cancelMessage) else x)])
  {
    hide Turn, Advances, Rep, Reports, Advancing, InQueue;
    WaitsUntilItsTurn(run, steps, j, i, t);
    EntriesTell(run, steps, i, t);
    DeferredWakesBare(run, steps, i, t, 0);
    var s, env := run[i].tasks[t], TurnEnvOf(run[i], steps[i], t);
    TurnAdvancesExactly(s, env);
    if !Advancing(s, env) { StuckFinishes(s, env); }
  }

  /** At every turn of every run a deferred error and a wake's error never meet: a turn that
      puts the deferred one first, short of a cancellation that is owed, and a turn that puts
      the wake's first do the same. */
  lemma {:induction false} PrecedenceIsMoot(run: seq<World>, steps: seq<Wakeups.Step>, i: nat, t: nat)
    requires IsRun(run, steps) && run[0] == EMPTY && i < |steps| && TurnOf(run[i], steps[i], t)
    requires t < |run[i].tasks| && !run[i].tasks[t].finished && Advancing(run[i].tasks[t], TurnEnvOf(run[i], steps[i], t))
    ensures var s, env := run[i].tasks[t], TurnEnvOf(run[i], steps[i], t);
            var advances := Advances(Turn(s, env).effects);
            && (s.deferredThrow.Some? ==> env.wake.Bare?)
            && (forall x :: s.deferredThrow == Some(x) && (s.mustCancel ==> x.CancelledError?) ==> advances == [Throw(x)])
            && (forall x :: WokenWith(env, x) && (s.mustCancel ==> x.CancelledError?) ==> advances == [Throw(x)])
  {
    hide Turn, Advances, Rep, InQueue;
    EntriesTell(run, steps, i, t);
    var s, env := run[i].tasks[t], TurnEnvOf(run[i], steps[i], t);
    TurnAdvancesExactly(s, env);
    if s.deferredThrow.Some? { DeferredWakesBare(run, steps, i, t, 0); }
  }

  lemma {:induction false} WaitingIsStarted(s: TaskState)
    requires Rep(s) && s.waitingOn.Some?
    ensures s.coroutine.Some? && s.deferredThrow.None?
  {
  }

  /** In every run the done callbacks that a turn hands on when it finishes its task are left
      at the end of the queue, in their order, those aside whose `call_soon` fails. */
  lemma {:induction false} CallbacksAreQueued(run: seq<World>, steps: seq<Wakeups.Step>, i: nat, t: nat)
    requires IsRun(run, steps) && run[0] == EMPTY && i < |steps| && TurnOf(run[i], steps[i], t)
    requires t < |run[i].tasks| && !run[i].tasks[t].finished && t < |run[i + 1].tasks| && run[i + 1].tasks[t].finished
    ensures EndsWith(run[i + 1], Turn(run[i].tasks[t], TurnEnvOf(run[i], steps[i], t)).effects, steps[i].e.failing)
  {
    hide Turn, TurnIn, Rep, Tells, InQueue, Handed, Entries, Enabled;
    EntriesTell(run, steps, i, t);
    TurnReached(run[i], steps[i], t);
    FinishingTurnHandsOn(run[i].(ready := run[i].ready[1..]), t, WokenBy(run[i], run[i].ready[0].future, steps[i].e));
  }
}
