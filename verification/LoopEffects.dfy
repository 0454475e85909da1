/** What reaches the loop: the queue is first in, first out, a future ends once and stays as
    it ended, what Python code does takes effect, and the callbacks a finished task hands on
    are queued in their order. */
module LoopEffects {
  import opened Wrappers
  import opened Responses
  import opened TaskMachine
  import opened TaskProperties
  import opened TaskTurns
  import opened LoopMachine
  import opened Wakeups

  // ----- The queue only grows at its end, and a future ends once

  predicate Onward(w: World, r: World) {
    && w.ready <= r.ready && |w.futures| <= |r.futures|
    && forall f :: 0 <= f < |w.futures| && w.futures[f].ending.Some? ==> r.futures[f].ending == w.futures[f].ending
  }

  lemma {:induction false} AppliedOnward(w: World, t: nat, effect: Effect, settles: Settling, failing: set<Ref>)
    ensures Onward(w, Applied(w, t, effect, settles, failing))
  {
    hide Wakes;
  }

  lemma {:induction false} AppliedAllOnward(w: World, t: nat, effects: seq<Effect>, settles: Settling, failing: set<Ref>)
    ensures Onward(w, AppliedAll(w, t, effects, settles, failing))
    decreases |effects|
  {
    hide Applied;
    if effects != [] {
      AppliedOnward(w, t, effects[0], settles, failing);
      AppliedAllOnward(Applied(w, t, effects[0], settles, failing), t, effects[1..], settles, failing);
    }
  }

  lemma {:induction false} InstalledOnward(w: World, t: nat, state: TaskState, effects: seq<Effect>, settles: Settling, failing: set<Ref>)
    requires t < |w.tasks|
    ensures Onward(w, Installed(w, t, state, effects, settles, failing))
  {
    hide AppliedAll;
    AppliedAllOnward(w.(tasks := w.tasks[t := state]), t, effects, settles, failing);
  }

  lemma {:induction false} DoneOnward(w: World, act: Act, failing: set<Ref>)
    ensures Onward(w, LoopMachine.Done(w, act, failing))
  {
    hide Wakes, Installed, OpOutcome;
    if act.OnTask? && act.task < |w.tasks| {
      var o := OpOutcome(w.tasks[act.task], act.op);
      InstalledOnward(w, act.task, o.state, o.effects, act.settles, failing);
    }
  }

  lemma {:induction false} DoneAllOnward(w: World, acts: seq<Act>, failing: set<Ref>)
    ensures Onward(w, DoneAll(w, acts, failing))
    decreases |acts|
  {
    hide LoopMachine.Done;
    if acts != [] {
      DoneOnward(w, acts[0], failing);
      DoneAllOnward(LoopMachine.Done(w, acts[0], failing), acts[1..], failing);
    }
  }

  lemma {:induction false} ConcludedOnward(w: World, t: nat, p: Phase, e: Env)
    requires t < |w.tasks| && !p.Advance?
    ensures Onward(w, Concluded(w, t, p, e))
  {
    hide Installed, DoneAll, Finish, InternalError;
    InstalledOnward(w, t, p.state, p.effects, e.settles, e.failing);
    InstalledTask(w, t, p.state, p.effects, e.settles, e.failing);
    if p.Abort? {
      var installed := Installed(w, t, p.state, p.effects, e.settles, e.failing);
      DoneAllOnward(installed, e.closeActs, e.failing);
      var closed := if installed.tasks[t].coroutine.None? then installed else DoneAll(installed, e.closeActs, e.failing);
      var o := Finish(closed.tasks[t], InternalError(), Aborted);
      InstalledOnward(closed, t, o.state, o.effects, e.settles, e.failing);
    }
  }

  lemma {:induction false} TurnOnward(w: World, t: nat, e: Env)
    requires t < |w.tasks|
    ensures Onward(w, TurnIn(w, t, e))
  {
    hide Installed, DoneAll, Concluded, Begin, Settle;
    var p := Begin(w.tasks[t], e.turn);
    if !p.Advance? {
      ConcludedOnward(w, t, p, e);
    } else {
      var entered := Installed(w, t, p.state, p.effects, e.settles, e.failing);
      InstalledOnward(w, t, p.state, p.effects, e.settles, e.failing);
      InstalledTask(w, t, p.state, p.effects, e.settles, e.failing);
      DoneAllOnward(entered, e.acts, e.failing);
      var ran := DoneAll(entered, e.acts, e.failing);
      SameReplies(ran.tasks[t], t, e);
      ConcludedOnward(ran, t, Settle(ran.tasks[t], e.turn), e);
    }
  }

  /** A step takes at most the head off the queue; otherwise it only adds at the end, and
      endings stand. */
  lemma {:induction false} StepOnward(w: World, step: Wakeups.Step)
    requires Enabled(w, step)
    ensures Onward(if step.Head? then w.(ready := w.ready[1..]) else w, Next(w, step))
  {
    hide TurnIn, DoneAll, LoopMachine.Done, Wakes;
    if step.Head? {
      var e, popped := step.e, w.(ready := w.ready[1..]);
      match w.ready[0] {
        case Wake(u, future) => if u < |w.tasks| { TurnOnward(popped, u, WokenBy(w, future, e)); }
        case CancelCall(u) => DoneOnward(popped, OnTask(u, Cancel(None, e.reply), e.settles), e.failing);
        case UserCallback(_) => DoneAllOnward(popped, e.acts, e.failing);
      }
    }
  }

  /** A future that has ended stays as it ended. */
  lemma {:induction false} EndingStays(run: seq<World>, steps: seq<Wakeups.Step>, a: nat, b: nat, f: nat)
    requires IsRun(run, steps) && a <= b < |run| && f < |run[a].futures| && run[a].futures[f].ending.Some?
    ensures f < |run[b].futures| && run[b].futures[f].ending == run[a].futures[f].ending
    decreases b
  {
    hide Next, Enabled;
    if b > a {
      EndingStays(run, steps, a, b - 1, f);
      StepOnward(run[b - 1], steps[b - 1]);
    }
  }

  /** The callbacks the loop runs between two states. */
  function Heads(steps: seq<Wakeups.Step>, a: nat, b: nat): nat
    requires a <= b <= |steps|
  {
    if a == b then 0 else Heads(steps, a, b - 1) + if steps[b - 1].Head? then 1 else 0
  }

  /** First in, first out: an entry moves up by one place with each callback run. */
  lemma {:induction false} EntryMovesUp(run: seq<World>, steps: seq<Wakeups.Step>, a: nat, b: nat, place: nat)
    requires IsRun(run, steps) && a <= b < |run| && place < |run[a].ready| && Heads(steps, a, b) <= place
    ensures place - Heads(steps, a, b) < |run[b].ready| && run[b].ready[place - Heads(steps, a, b)] == run[a].ready[place]
    decreases b
  {
    hide Next, Enabled;
    if b > a {
      EntryMovesUp(run, steps, a, b - 1, place);
      StepOnward(run[b - 1], steps[b - 1]);
    }
  }

  // ----- What Python code does takes effect

  lemma {:induction false} ActsSplit(w: World, acts: seq<Act>, failing: set<Ref>, k: nat)
    requires k < |acts|
    ensures DoneAll(w, acts, failing) == DoneAll(LoopMachine.Done(DoneAll(w, acts[..k], failing), acts[k], failing), acts[k + 1..], failing)
    decreases k
  {
    hide LoopMachine.Done;
    if k == 0 {
      assert acts[..0] == [];
    } else {
      assert acts[..k][0] == acts[0] && acts[..k][1..] == acts[1..][..k - 1];
      assert acts[1..][k - 1] == acts[k] && acts[1..][k..] == acts[k + 1..];
      ActsSplit(LoopMachine.Done(w, acts[0], failing), acts[1..], failing, k - 1);
    }
  }

  /** Whatever else the code does: a pending future it settles ends as it says, a callback
      it queues is in the queue behind what was there, a future it creates is pending. */
  lemma {:induction false} ActsTakeEffect(w: World, acts: seq<Act>, failing: set<Ref>, k: nat)
    requires k < |acts|
    ensures var before, after := DoneAll(w, acts[..k], failing), DoneAll(w, acts, failing);
            && (acts[k].SettleFuture? && acts[k].future < |before.futures| && before.futures[acts[k].future].ending.None? ==>
                  acts[k].future < |after.futures| && after.futures[acts[k].future].ending == Some(acts[k].ending))
            && (acts[k].Soon? ==> before.ready + [UserCallback(acts[k].weight)] <= after.ready)
            && (acts[k].NewFuture? ==> |before.futures| < |after.futures|)
  {
    hide DoneAll, OpOutcome, Wakes, Installed;
    ActsSplit(w, acts, failing, k);
    var before := DoneAll(w, acts[..k], failing);
    DoneAllOnward(LoopMachine.Done(before, acts[k], failing), acts[k + 1..], failing);
  }

  /** Likewise a future that something outside the loop settles; the tasks that wait on it
      are queued in the order in which they came. */
  lemma {:induction false} OutsideSettles(w: World, f: nat, ending: Ending, i: nat)
    requires f < |w.futures| && w.futures[f].ending.None?
    ensures var r, waiting := Next(w, Outside(f, ending)), w.futures[f].callbacks;
            && f < |r.futures| && r.futures[f].ending == Some(ending)
            && |r.ready| == |w.ready| + |waiting|
            && (i < |waiting| ==> r.ready[|w.ready| + i] == Wake(waiting[i], Some(f)))
  {
    WakesAt(w.futures[f].callbacks, f, i);
  }

  lemma {:induction false} WakesAt(callbacks: seq<nat>, f: nat, i: nat)
    ensures |Wakes(callbacks, f)| == |callbacks|
    ensures i < |callbacks| ==> Wakes(callbacks, f)[i] == Wake(callbacks[i], Some(f))
  {
    if callbacks != [] {
      WakesAt(callbacks[1..], f, if i > 0 then i - 1 else 0);
    }
  }

  // ----- Done callbacks are queued

  /** The callbacks handed on among some calls. */
  function Handed(effects: seq<Effect>): seq<Callback> {
    if effects == [] then [] else HandedBy(effects[0]) + Handed(effects[1..])
  }

  function HandedBy(e: Effect): seq<Callback> {
    if e.Fire? then [e.callback] else []
  }

  /** Their queue entries, those aside whose `call_soon` fails. */
  function Entries(callbacks: seq<Callback>, failing: set<Ref>): seq<Handle> {
    if callbacks == [] then []
    else (if callbacks[0].callable in failing then [] else [UserCallback(callbacks[0].weight)]) + Entries(callbacks[1..], failing)
  }

  lemma {:induction false} HandedAppend(a: seq<Effect>, b: seq<Effect>)
    ensures Handed(a + b) == Handed(a) + Handed(b)
  {
    hide HandedBy;
    if a == [] {
      assert a + b == b;
    } else {
      assert (a + b)[1..] == a[1..] + b;
      HandedAppend(a[1..], b);
    }
  }

  /** Calls that queue nothing unless they hand a callback on. */
  predicate Plain(effects: seq<Effect>) {
    forall i :: 0 <= i < |effects| ==> !effects[i].AddDoneCallback? && !effects[i].CallSoonSelf? && !effects[i].CancelFuture?
  }

  predicate NoFire(effects: seq<Effect>) {
    forall i :: 0 <= i < |effects| ==> !effects[i].Fire?
  }

  lemma {:induction false} NothingHanded(effects: seq<Effect>)
    requires NoFire(effects)
    ensures Handed(effects) == []
  {
    if effects != [] { NothingHanded(effects[1..]); }
  }

  lemma {:induction false} PlainQueues(w: World, t: nat, effects: seq<Effect>, settles: Settling, failing: set<Ref>)
    requires Plain(effects)
    ensures AppliedAll(w, t, effects, settles, failing).ready == w.ready + Entries(Handed(effects), failing)
    decreases |effects|
  {
    hide Entries, Applied;
    if effects == [] {
      EntriesAppend([], [], failing);
    } else {
      var next := Applied(w, t, effects[0], settles, failing);
      OneQueues(w, t, effects[0], settles, failing);
      PlainQueues(next, t, effects[1..], settles, failing);
      EntriesAppend(HandedBy(effects[0]), Handed(effects[1..]), failing);
    }
  }

  lemma {:induction false} OneQueues(w: World, t: nat, effect: Effect, settles: Settling, failing: set<Ref>)
    requires Plain([effect])
    ensures Applied(w, t, effect, settles, failing).ready == w.ready + Entries(HandedBy(effect), failing)
  {
    assert !effect.AddDoneCallback? && !effect.CallSoonSelf? && !effect.CancelFuture? by { assert [effect][0] == effect; }
    hide Plain;
    if effect.Fire? { assert [effect.callback][1..] == []; }
  }

  lemma {:induction false} EntriesAppend(a: seq<Callback>, b: seq<Callback>, failing: set<Ref>)
    ensures Entries(a + b, failing) == Entries(a, failing) + Entries(b, failing)
    ensures Entries([], failing) == []
  {
    if a == [] {
      assert a + b == b;
    } else {
      assert (a + b)[1..] == a[1..] + b;
      EntriesAppend(a[1..], b, failing);
    }
  }

  lemma {:induction false} FiresPlain(callbacks: seq<Callback>)
    ensures Plain(Fires(callbacks))
  {
    if callbacks != [] { FiresPlain(callbacks[1..]); }
  }

  lemma {:induction false} FinishPlain(s: TaskState, response: HandlerResponse, completion: Completion)
    ensures Plain(Finish(s, response, completion).effects)
  {
    FiresPlain(s.doneCallbacks);
  }

  lemma {:induction false} OpsHandNothing(s: TaskState, ops: seq<Op>)
    requires !s.finished
    ensures Handed(RunOps(s, ops).effects) == [] && !RunOps(s, ops).state.finished
    decreases |ops|
  {
    hide Handed, Gone, Drops, Without;
    if ops == [] {
      NothingHanded([]);
    } else {
      var first := OpOutcome(s, ops[0]);
      if ops[0].RemoveCallback? { DropsHandNothing(Gone(s.doneCallbacks, ops[0].equal)); }
      NothingHanded(first.effects);
      OpsHandNothing(first.state, ops[1..]);
      HandedAppend(first.effects, RunOps(first.state, ops[1..]).effects);
    }
  }

  lemma {:induction false} DropsHandNothing(callbacks: seq<Callback>)
    ensures NoFire(Drops(callbacks))
  {
    if callbacks != [] { DropsHandNothing(callbacks[1..]); }
  }

  /** The world's queue ends with what the calls hand on. */
  ghost predicate EndsWith(r: World, effects: seq<Effect>, failing: set<Ref>) {
    exists front :: r.ready == front + Entries(Handed(effects), failing)
  }

  /** A part of a turn that finishes the task, or gives it up, queues what it hands on. */
  lemma {:induction false} ConcludedHandsOn(w: World, t: nat, p: Phase, e: Env)
    requires t < |w.tasks| && !p.Advance?
    requires p.Stop? ==> Plain(p.effects)
    requires p.Abort? ==> !p.state.finished && p.state.coroutine.Some? && Handed(p.effects) == []
    ensures EndsWith(Concluded(w, t, p, e), Conclude(p, OpsOn(t, e.closeActs)).effects, e.failing)
  {
    hide Handed, Entries, AppliedAll, Finish, DoneAll, RunOps, InternalError, OpsOn, Plain;
    var installed := Installed(w, t, p.state, p.effects, e.settles, e.failing);
    if p.Stop? {
      PlainQueues(w.(tasks := w.tasks[t := p.state]), t, p.effects, e.settles, e.failing);
    } else {
      InstalledTask(w, t, p.state, p.effects, e.settles, e.failing);
      var closed := DoneAll(installed, e.closeActs, e.failing);
      ActsProject(installed, e.closeActs, e.failing, t);
      OpsHandNothing(p.state, OpsOn(t, e.closeActs));
      var ran := RunOps(p.state, OpsOn(t, e.closeActs));
      var o := Finish(ran.state, InternalError(), Aborted);
      FinishPlain(ran.state, InternalError(), Aborted);
      PlainQueues(closed.(tasks := closed.tasks[t := o.state]), t, o.effects, e.settles, e.failing);
      AbandonHands(p.effects, ran.effects, o.effects);
    }
  }

  lemma {:induction false} AbandonHands(before: seq<Effect>, ran: seq<Effect>, end: seq<Effect>)
    requires Handed(before) == [] && Handed(ran) == []
    ensures Handed(before + ([CloseCoroutine] + ran + end)) == Handed(end)
  {
    hide Handed;
    NothingHanded([CloseCoroutine]);
    HandedAppend([CloseCoroutine], ran);
    HandedAppend([CloseCoroutine] + ran, end);
    HandedAppend(before, [CloseCoroutine] + ran + end);
  }

  lemma {:induction false} BeginHands(s: TaskState, e: TurnEnv)
    requires Rep(s) && !s.finished
    ensures var p := Begin(s, e);
            && (p.Stop? ==> Plain(p.effects))
            && (!p.Stop? ==> Handed(p.effects) == [] && !p.state.finished && p.state.coroutine.Some?)
  {
    hide Finish, InternalError, PendingThrow, Handed;
    var p, c := Begin(s, e), Claimed(s);
    FinishPlain(c, InternalError(), Cancelled(s.cancelMessage));
    FinishPlain(c, InternalError(), Aborted);
    if e.factory.FactoryRaised? { FinishPlain(c, InternalError(), Raised(e.factory.error)); }
    if !p.Stop? { NothingHanded(p.effects); }
  }

  lemma {:induction false} SettleHands(s: TaskState, e: TurnEnv)
    requires !s.finished && s.coroutine.Some?
    ensures var p := Settle(s, e);
            && (p.Stop? && p.state.finished ==> Plain(p.effects))
            && (p.Abort? ==> Handed(p.effects) == [] && !p.state.finished && p.state.coroutine.Some?)
  {
    hide Finish, InternalError, ReturnResponse, Handed;
    var p := Settle(s, e);
    match e.result {
      case StepReturned(value) => FinishPlain(s, ReturnResponse(value), Returned(value));
      case StepRaised(error) =>
        FinishPlain(s, InternalError(), if error.CancelledError? then Cancelled(error.message) else Raised(error));
      case _ => if p.Abort? { NothingHanded(p.effects); }
    }
  }

  lemma {:induction false} TurnHands(before: seq<Effect>, advance: Effect, ran: seq<Effect>, settled: seq<Effect>)
    requires Handed(before) == [] && Handed(ran) == [] && !advance.Fire?
    ensures Handed(before + [advance] + ran + settled + [ExitContext, LeaveTask]) == Handed(settled)
  {
    hide Handed;
    NothingHanded([advance]);
    NothingHanded([ExitContext, LeaveTask]);
    HandedAppend(before, [advance]);
    HandedAppend(before + [advance], ran);
    HandedAppend(before + [advance] + ran, settled);
    HandedAppend(before + [advance] + ran + settled, [ExitContext, LeaveTask]);
  }

  /** A turn that finishes its task leaves the callbacks handed on at the end of the queue, in
      their order, those aside whose `call_soon` fails. */
  lemma {:induction false} FinishingTurnHandsOn(w: World, t: nat, e: Env)
    requires t < |w.tasks| && Rep(w.tasks[t]) && !w.tasks[t].finished && Turn(w.tasks[t], TaskEnv(t, e)).state.finished
    ensures EndsWith(TurnIn(w, t, e), Turn(w.tasks[t], TaskEnv(t, e)).effects, e.failing)
  {
    hide Handed, Entries, EndsWith, Installed, Finish, DoneAll, RunOps, InternalError, OpsOn, Plain, Rep, Begin, Settle, Concluded, Conclude;
    var s := w.tasks[t];
    SameReplies(s, t, e);
    BeginHands(s, e.turn);
    var p := Begin(s, e.turn);
    if !p.Advance? {
      ConcludedHandsOn(w, t, p, e);
    } else {
      var entered := Installed(w, t, p.state, p.effects, e.settles, e.failing);
      InstalledTask(w, t, p.state, p.effects, e.settles, e.failing);
      var ran := DoneAll(entered, e.acts, e.failing);
      ActsProject(entered, e.acts, e.failing, t);
      OpsHandNothing(p.state, OpsOn(t, e.acts));
      BeginKeepsRep(s, e.turn);
      OpsKeepRep(p.state, OpsOn(t, e.acts));
      var after := RunOps(p.state, OpsOn(t, e.acts));
      SameReplies(after.state, t, e);
      SettleHands(after.state, e.turn);
      var q := Settle(after.state, e.turn);
      ConcludeEnds(q, OpsOn(t, e.closeActs));
      ConcludedHandsOn(ran, t, q, e);
      TurnHands(p.effects, if p.pending.Some? then Throw(p.pending.value) else Send, after.effects,
                Conclude(q, OpsOn(t, e.closeActs)).effects);
      SameEnd(TurnIn(w, t, e), Turn(s, TaskEnv(t, e)).effects, Conclude(q, OpsOn(t, e.closeActs)).effects, e.failing);
    }
  }

  lemma {:induction false} ConcludeEnds(p: Phase, ops: seq<Op>)
    requires !p.Advance?
    ensures p.Stop? ==> Conclude(p, ops).state == p.state
  {
  }

  lemma {:induction false} SameEnd(r: World, a: seq<Effect>, b: seq<Effect>, failing: set<Ref>)
    requires Handed(a) == Handed(b) && EndsWith(r, b, failing)
    ensures EndsWith(r, a, failing)
  {
  }
}
