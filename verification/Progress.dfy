/** Progress: a loop whose coroutines are finite and whose parked futures get
    completed runs its queue dry with every task finished, whatever fails on the way. */
module Progress {
  import opened Wrappers
  import opened Sums
  import opened Responses
  import opened TaskMachine
  import opened TaskProperties
  import opened LoopMachine
  import opened Wakeups

  // ----- What is still to be done

  function CallbacksCost(callbacks: seq<Callback>): nat {
    if callbacks == [] then 0 else 1 + callbacks[0].weight + CallbacksCost(callbacks[1..])
  }

  function HandleCost(h: Handle): nat {
    if h.UserCallback? then 1 + h.weight else 1
  }

  function QueueCost(ready: seq<Handle>): nat {
    if ready == [] then 0 else HandleCost(ready[0]) + QueueCost(ready[1..])
  }

  function Parked(futures: seq<Future>): seq<nat> {
    seq(|futures|, i requires 0 <= i < |futures| => |futures[i].callbacks|)
  }

  function Pending(tasks: seq<TaskState>): seq<nat> {
    seq(|tasks|, i requires 0 <= i < |tasks| => CallbacksCost(tasks[i].doneCallbacks))
  }

  /** The measure: what the coroutines may still do, what is queued, who is parked, and
      which done callbacks are yet to be fired. */
  function Potential(w: World): nat {
    2 * Sum(w.ranks) + QueueCost(w.ready) + 2 * Sum(Parked(w.futures)) + Sum(Pending(w.tasks))
  }

  // ----- What each move costs

  function EffectCost(e: Effect): nat {
    if e.AddDoneCallback? && e.ok then 2
    else if e.CallSoonSelf? && e.ok then 1
    else if e.Fire? then 1 + e.callback.weight
    else 0
  }

  function EffectsCost(effects: seq<Effect>): nat {
    if effects == [] then 0 else EffectCost(effects[0]) + EffectsCost(effects[1..])
  }

  lemma {:induction false} EffectsCostAppend(a: seq<Effect>, b: seq<Effect>)
    ensures EffectsCost(a + b) == EffectsCost(a) + EffectsCost(b)
  {
    hide EffectCost;
    if a == [] {
      assert a + b == b;
    } else {
      assert (a + b)[1..] == a[1..] + b;
      EffectsCostAppend(a[1..], b);
    }
  }

  lemma {:induction false} QueueCostAppend(a: seq<Handle>, b: seq<Handle>)
    ensures QueueCost(a + b) == QueueCost(a) + QueueCost(b)
  {
    hide HandleCost;
    if a == [] {
      assert a + b == b;
    } else {
      assert (a + b)[1..] == a[1..] + b;
      QueueCostAppend(a[1..], b);
    }
  }

  lemma {:induction false} QueueCostOne(h: Handle)
    ensures QueueCost([h]) == HandleCost(h)
  {
  }

  lemma {:induction false} WakesCost(callbacks: seq<nat>, f: nat)
    ensures QueueCost(Wakes(callbacks, f)) == |callbacks|
  {
    if callbacks != [] {
      WakesCost(callbacks[1..], f);
      assert Wakes(callbacks, f)[1..] == Wakes(callbacks[1..], f);
    }
  }

  lemma {:induction false} QueuedCost(w: World, h: Handle)
    ensures Potential(w.(ready := w.ready + [h])) == Potential(w) + HandleCost(h)
  {
    hide QueueCost, HandleCost;
    QueueCostAppend(w.ready, [h]);
    QueueCostOne(h);
  }

  /** Settling a future turns each parked wake, counted twice, into a queued one. */
  lemma {:induction false} SettledCost(w: World, f: nat, ending: Ending)
    ensures Potential(Settled(w, f, ending)) <= Potential(w)
    ensures f < |w.futures| && w.futures[f].ending.None? && w.futures[f].callbacks != [] ==>
              Potential(Settled(w, f, ending)) < Potential(w)
  {
    if f < |w.futures| && w.futures[f].ending.None? {
      var callbacks := w.futures[f].callbacks;
      hide QueueCost, Sum;
      QueueCostAppend(w.ready, Wakes(callbacks, f));
      WakesCost(callbacks, f);
      SumUpdate(Parked(w.futures), f, 0);
      assert Parked(w.futures[f := Future(Some(ending), [])]) == Parked(w.futures)[f := 0];
    }
  }

  lemma {:induction false} WatchedCost(w: World, t: nat, f: nat)
    ensures Potential(Watched(w, t, f)) <= Potential(w) + 2
  {
    hide QueueCost, Sum;
    if f < |w.futures| {
      if w.futures[f].ending.Some? {
        QueuedCost(w, Wake(t, Some(f)));
      } else {
        var future := w.futures[f];
        var watched := future.(callbacks := future.callbacks + [t]);
        SumUpdate(Parked(w.futures), f, |future.callbacks| + 1);
        assert Parked(w.futures[f := watched]) == Parked(w.futures)[f := |future.callbacks| + 1];
      }
    }
  }

  lemma {:induction false} AppliedCost(w: World, t: nat, e: Effect, settles: Settling, failing: set<Ref>)
    ensures Potential(Applied(w, t, e, settles, failing)) <= Potential(w) + EffectCost(e)
  {
    hide Potential, Settled, Watched;
    match e {
      case AddDoneCallback(f, _) => WatchedCost(w, t, f);
      case CancelFuture(f, _) => if settles.AtOnce? { SettledCost(w, f, Cancellation(settles.message)); }
      case CallSoonSelf(_) => QueuedCost(w, Wake(t, None));
      case Fire(callback) => QueuedCost(w, UserCallback(callback.weight));
      case _ =>
    }
  }

  lemma {:induction false} AppliedAllCost(w: World, t: nat, effects: seq<Effect>, settles: Settling, failing: set<Ref>)
    ensures Potential(AppliedAll(w, t, effects, settles, failing)) <= Potential(w) + EffectsCost(effects)
    decreases |effects|
  {
    hide Potential, Applied, EffectCost;
    if effects != [] {
      AppliedCost(w, t, effects[0], settles, failing);
      AppliedAllCost(Applied(w, t, effects[0], settles, failing), t, effects[1..], settles, failing);
    }
  }

  /** The charge of an outcome: callbacks it leaves pending, and calls it makes. */
  function Charge(state: TaskState, effects: seq<Effect>): nat {
    CallbacksCost(state.doneCallbacks) + EffectsCost(effects)
  }

  lemma {:induction false} InstalledCost(w: World, t: nat, state: TaskState, effects: seq<Effect>, settles: Settling, failing: set<Ref>)
    requires t < |w.tasks|
    ensures Potential(Installed(w, t, state, effects, settles, failing)) + CallbacksCost(w.tasks[t].doneCallbacks)
         <= Potential(w) + Charge(state, effects)
  {
    var moved := w.(tasks := w.tasks[t := state]);
    AppliedAllCost(moved, t, effects, settles, failing);
    hide Sum, QueueCost, CallbacksCost, EffectsCost, AppliedAll;
    SumUpdate(Pending(w.tasks), t, CallbacksCost(state.doneCallbacks));
    assert Pending(moved.tasks) == Pending(w.tasks)[t := CallbacksCost(state.doneCallbacks)];
  }

  // ----- What tasks charge

  lemma {:induction false} FiresCost(callbacks: seq<Callback>)
    ensures EffectsCost(Fires(callbacks)) == CallbacksCost(callbacks)
  {
    if callbacks != [] {
      FiresCost(callbacks[1..]);
      assert Fires(callbacks)[1..] == Fires(callbacks[1..]);
    }
  }

  predicate Free(effects: seq<Effect>) {
    forall i :: 0 <= i < |effects| ==> EffectCost(effects[i]) == 0
  }

  lemma {:induction false} FreeCost(effects: seq<Effect>)
    requires Free(effects)
    ensures EffectsCost(effects) == 0
  {
    if effects != [] {
      FreeCost(effects[1..]);
    }
  }

  lemma {:induction false} DropsFree(callbacks: seq<Callback>)
    ensures Free(Drops(callbacks))
  {
    if callbacks != [] {
      DropsFree(callbacks[1..]);
    }
  }

  lemma {:induction false} WithoutCost(callbacks: seq<Callback>, equal: set<Ref>)
    ensures CallbacksCost(Without(callbacks, equal)) <= CallbacksCost(callbacks)
  {
    if callbacks != [] {
      WithoutCost(callbacks[1..], equal);
      var left := Without(callbacks[1..], equal);
      if callbacks[0].callable !in equal {
        assert Without(callbacks, equal) == [callbacks[0]] + left;
        assert ([callbacks[0]] + left)[1..] == left;
      } else {
        assert Without(callbacks, equal) == left;
      }
    }
  }

  lemma {:induction false} CallbacksCostAppend(callbacks: seq<Callback>, c: Callback)
    ensures CallbacksCost(callbacks + [c]) == CallbacksCost(callbacks) + 1 + c.weight
  {
    if callbacks == [] {
      assert callbacks + [c] == [c] && [c][1..] == [];
    } else {
      assert (callbacks + [c])[1..] == callbacks[1..] + [c];
      CallbacksCostAppend(callbacks[1..], c);
    }
  }

  function OpCost(op: Op): nat {
    if op.AddCallback? then 1 + op.callback.weight else 0
  }

  lemma {:induction false} OpCharge(s: TaskState, op: Op)
    ensures var o := OpOutcome(s, op);
            Charge(o.state, o.effects) <= CallbacksCost(s.doneCallbacks) + OpCost(op)
  {
    var o := OpOutcome(s, op);
    hide EffectsCost, CallbacksCost, Drops, Without, Gone;
    match op {
      case Cancel(_, _) => FreeCost(o.effects);
      case Uncancel => FreeCost(o.effects);
      case AddCallback(callback, contextCopied) =>
        if contextCopied && s.finished {
          OneCost(Fire(callback));
          OneCost(Accept(callback));
          EffectsCostAppend([Accept(callback)], [Fire(callback)]);
          assert [Accept(callback)] + [Fire(callback)] == o.effects;
        } else {
          FreeCost(o.effects);
          CallbacksCostAppend(s.doneCallbacks, callback);
        }
      case RemoveCallback(equal) =>
        DropsFree(Gone(s.doneCallbacks, equal));
        FreeCost(o.effects);
        WithoutCost(s.doneCallbacks, equal);
    }
  }

  lemma {:induction false} OneCost(e: Effect)
    ensures EffectsCost([e]) == EffectCost(e)
  {
  }

  lemma {:induction false} FinishCharge(s: TaskState, response: HandlerResponse, completion: Completion)
    ensures var o := Finish(s, response, completion);
            Charge(o.state, o.effects) <= CallbacksCost(s.doneCallbacks)
  {
    var o := Finish(s, response, completion);
    hide EffectsCost, Fires;
    if s.finished {
      FreeCost(o.effects);
    } else {
      var head := [Ended(completion), RemoveLive] + if s.registered then [UnregisterTask] else [];
      FreeCost(head);
      FiresCost(s.doneCallbacks);
      FreeCost([Respond(response)]);
      EffectsCostAppend(head, Fires(s.doneCallbacks));
      EffectsCostAppend(head + Fires(s.doneCallbacks), [Respond(response)]);
    }
  }

  lemma {:induction false} FinishAfterCharge(s: TaskState, free: seq<Effect>, response: HandlerResponse, completion: Completion)
    requires Free(free)
    ensures var o := Finish(s, response, completion);
            Charge(o.state, free + o.effects) <= CallbacksCost(s.doneCallbacks)
  {
    hide EffectsCost, CallbacksCost, Finish;
    FinishCharge(s, response, completion);
    FreeCost(free);
    EffectsCostAppend(free, Finish(s, response, completion).effects);
  }

  lemma {:induction false} BeginCharge(s: TaskState, turn: TurnEnv)
    ensures Charge(Begin(s, turn).state, Begin(s, turn).effects) <= CallbacksCost(s.doneCallbacks)
  {
    hide EffectsCost, CallbacksCost, Finish, InternalError, PendingThrow;
    var p, c := Begin(s, turn), Claimed(s);
    if s.finished {
      FreeCost(p.effects);
    } else if s.coroutine.None? && s.mustCancel {
      FinishCharge(c, InternalError(), Cancelled(s.cancelMessage));
    } else if s.coroutine.None? && turn.factory.FactoryRaised? {
      FinishAfterCharge(c, [CallHandler], InternalError(), Raised(turn.factory.error));
    } else if s.coroutine.None? && !turn.contextCopied {
      FinishAfterCharge(c, [CallHandler, CopyContext(false), DiscardCoroutine], InternalError(), Aborted);
    } else {
      FreeCost(p.effects);
    }
  }

  /** Settling charges at most one new wake, and only when the task goes on. */
  lemma {:induction false} SettleCharge(s: TaskState, turn: TurnEnv)
    requires !s.finished
    ensures var p := Settle(s, turn);
            Charge(p.state, p.effects)
              <= CallbacksCost(s.doneCallbacks) + if p.Stop? && !p.state.finished then 2 else 0
  {
    hide EffectsCost, CallbacksCost, Finish, InternalError, ReturnResponse;
    var p := Settle(s, turn);
    match turn.result {
      case StepReturned(value) => FinishCharge(s, ReturnResponse(value), Returned(value));
      case StepRaised(error) =>
        FinishCharge(s, InternalError(), if error.CancelledError? then Cancelled(error.message) else Raised(error));
      case StepYieldedNone => OneCost(p.effects[0]);
      case StepYielded(f, park) => ParkCharge(s, turn, f, park);
    }
  }

  lemma {:induction false} ParkCharge(s: TaskState, turn: TurnEnv, f: Ref, park: ParkReplies)
    requires !s.finished
    ensures var p := Park(s, turn, f, park);
            && p.state.doneCallbacks == s.doneCallbacks && !p.state.finished
            && EffectsCost(p.effects) <= if p.Stop? then 2 else 0
  {
    var p := Park(s, turn, f, park);
    hide EffectsCost;
    if Misuse(park).Some? {
      OneCost(p.effects[0]);
    } else if p.Abort? {
      FreeCost(p.effects);
    } else {
      var more := if s.mustCancel then [CancelFuture(f, park.cancel)] else [];
      OneCost(ClearBlocking(f));
      OneCost(AddDoneCallback(f, true));
      FreeCost(more);
      EffectsCostAppend([ClearBlocking(f)], [AddDoneCallback(f, true)]);
      EffectsCostAppend([ClearBlocking(f)] + [AddDoneCallback(f, true)], more);
      assert [ClearBlocking(f)] + [AddDoneCallback(f, true)] + more == p.effects;
    }
  }

  // ----- What Python code costs

  function ActCost(act: Act): nat {
    if act.Soon? then 1 + act.weight else if act.OnTask? then OpCost(act.op) else 0
  }

  function ActsCost(acts: seq<Act>): nat {
    if acts == [] then 0 else ActCost(acts[0]) + ActsCost(acts[1..])
  }

  lemma {:induction false} DoneCost(w: World, act: Act, failing: set<Ref>)
    ensures Potential(Done(w, act, failing)) <= Potential(w) + ActCost(act)
  {
    hide OpOutcome, Installed, Settled, OpCost;
    match act {
      case OnTask(t, op, settles) =>
        if t < |w.tasks| {
          hide Potential;
          var o := OpOutcome(w.tasks[t], op);
          InstalledCost(w, t, o.state, o.effects, settles, failing);
          OpCharge(w.tasks[t], op);
        }
      case SettleFuture(f, ending) => SettledCost(w, f, ending);
      case NewFuture =>
        assert Parked(w.futures + [Future(None, [])]) == Parked(w.futures) + [0];
        SumAppend(Parked(w.futures), 0);
      case Soon(weight) => QueuedCost(w, UserCallback(weight));
    }
  }

  lemma {:induction false} ActsCharge(w: World, acts: seq<Act>, failing: set<Ref>)
    ensures Potential(DoneAll(w, acts, failing)) <= Potential(w) + ActsCost(acts)
    decreases |acts|
  {
    hide Potential, Done, ActCost;
    if acts != [] {
      DoneCost(w, acts[0], failing);
      ActsCharge(Done(w, acts[0], failing), acts[1..], failing);
    }
  }

  // ----- What a turn costs

  lemma {:induction false} AbandonCost(w: World, t: nat, e: Env)
    requires t < |w.tasks|
    ensures Potential(AbandonIn(w, t, e)) <= Potential(w) + ActsCost(e.closeActs)
  {
    hide Potential, Finish, Installed, DoneAll, InternalError, ActsCost, CallbacksCost;
    var closed := if w.tasks[t].coroutine.None? then w else DoneAll(w, e.closeActs, e.failing);
    ActsCharge(w, e.closeActs, e.failing);
    FinishCharge(closed.tasks[t], InternalError(), Aborted);
    var o := Finish(closed.tasks[t], InternalError(), Aborted);
    InstalledCost(closed, t, o.state, o.effects, e.settles, e.failing);
  }

  lemma {:induction false} ConcludedCost(w: World, t: nat, p: Phase, e: Env, extra: nat)
    requires t < |w.tasks| && !p.Advance?
    requires Charge(p.state, p.effects) <= CallbacksCost(w.tasks[t].doneCallbacks) + extra
    ensures Potential(Concluded(w, t, p, e)) <= Potential(w) + ActsCost(e.closeActs) + extra
  {
    hide Potential, Installed, AbandonIn, ActsCost, CallbacksCost, Charge;
    InstalledCost(w, t, p.state, p.effects, e.settles, e.failing);
    InstalledTask(w, t, p.state, p.effects, e.settles, e.failing);
    if p.Abort? { AbandonCost(Installed(w, t, p.state, p.effects, e.settles, e.failing), t, e); }
  }

  /** The coroutine suspended rather than ended. */
  predicate Yields(turn: TurnEnv) {
    turn.result.StepYielded? || turn.result.StepYieldedNone?
  }

  lemma {:induction false} EndsFinished(s: TaskState, turn: TurnEnv)
    requires !Yields(turn)
    ensures Settle(s, turn).Stop? && Settle(s, turn).state.finished
  {
    hide FinishProgram, InternalError, ReturnResponse;
  }

  lemma {:induction false} TurnCost(w: World, t: nat, e: Env)
    requires t < |w.tasks| && Rep(w.tasks[t])
    ensures Potential(TurnIn(w, t, e))
         <= Potential(w) + ActsCost(e.acts) + ActsCost(e.closeActs) + if Yields(e.turn) then 2 else 0
  {
    BeginKeepsRep(w.tasks[t], e.turn);
    hide Potential, Installed, Concluded, DoneAll, ActsCost, CallbacksCost, Charge, Begin, Settle, Rep, RunOps, EffectsCost;
    var p := Begin(w.tasks[t], e.turn);
    BeginCharge(w.tasks[t], e.turn);
    if !p.Advance? {
      ConcludedCost(w, t, p, e, 0);
    } else {
      var entered := Installed(w, t, p.state, p.effects, e.settles, e.failing);
      InstalledCost(w, t, p.state, p.effects, e.settles, e.failing);
      InstalledTask(w, t, p.state, p.effects, e.settles, e.failing);
      var ran := DoneAll(entered, e.acts, e.failing);
      ActsCharge(entered, e.acts, e.failing);
      ActsProject(entered, e.acts, e.failing, t);
      OpsKeepRep(p.state, OpsOn(t, e.acts));
      SettleKeepsRep(ran.tasks[t], e.turn);
      SettleCharge(ran.tasks[t], e.turn);
      if !Yields(e.turn) { EndsFinished(ran.tasks[t], e.turn); }
      ConcludedCost(ran, t, Settle(ran.tasks[t], e.turn), e, if Yields(e.turn) then 2 else 0);
    }
  }

  // ----- Finite coroutines and finite callbacks

  /** What makes the code on the loop finite, whatever the scheduler does: a coroutine
      pays for what it queues, and for suspending, out of its rank; any other callback
      pays out of its weight. */
  predicate Pays(w: World, e: Env) {
    w.ready != [] ==>
      match w.ready[0]
      case Wake(t, _) =>
        t < |w.ranks| ==>
          e.newRank + ActsCost(e.acts) + ActsCost(e.closeActs) + (if Yields(e.turn) then 1 else 0) <= w.ranks[t]
          || (t < |w.tasks| && w.tasks[t].finished && e.newRank <= w.ranks[t])
      case CancelCall(_) => true
      case UserCallback(weight) => ActsCost(e.acts) <= weight
  }

  predicate Ranked(w: World) {
    |w.ranks| == |w.tasks|
  }

  lemma {:induction false} PopCost(w: World)
    requires w.ready != []
    ensures Potential(w) == Potential(w.(ready := w.ready[1..])) + HandleCost(w.ready[0])
  {
  }

  lemma {:induction false} RankCost(w: World, t: nat, rank: nat)
    requires t < |w.ranks|
    ensures Potential(w.(ranks := w.ranks[t := rank])) + 2 * w.ranks[t] == Potential(w) + 2 * rank
  {
    hide QueueCost, Sum;
    SumUpdate(w.ranks, t, rank);
  }

  /** Running any callback brings the loop strictly closer to the end. */
  lemma {:induction false} HeadProgresses(w: World, e: Env)
    requires w.ready != [] && Inv(w, None) && Ranked(w) && Pays(w, e)
    ensures Potential(RunHead(w, e)) < Potential(w) && Ranked(RunHead(w, e))
  {
    var popped := w.(ready := w.ready[1..]);
    PopCost(w);
    match w.ready[0] {
      case CancelCall(t) => CancelProgresses(popped, t, e);
      case UserCallback(weight) =>
        hide Potential, DoneAll, Inv;
        ActsCharge(popped, e.acts, e.failing);
      case Wake(t, future) =>
        var woken := WokenBy(w, future, e);
        HeadExists(w);
        InvRep(w, t, None);
        hide Potential, TurnIn, Inv, Rep;
        TurnCost(popped, t, woken);
        if w.tasks[t].finished { NothingInstalled(popped, t, woken); }
        TurnProjects(popped, t, woken);
        TurnKeepsRanks(popped, t, woken);
        RankCost(TurnIn(popped, t, woken), t, e.newRank);
    }
  }

  lemma {:induction false} CancelProgresses(w: World, t: nat, e: Env)
    ensures Potential(Done(w, OnTask(t, Cancel(None, e.reply), e.settles), e.failing)) <= Potential(w)
  {
    hide Potential, Done;
    DoneCost(w, OnTask(t, Cancel(None, e.reply), e.settles), e.failing);
  }

  lemma {:induction false} TurnKeepsRanks(w: World, t: nat, e: Env)
    requires t < |w.tasks|
    ensures TurnIn(w, t, e).ranks == w.ranks
  {
  }

  // ----- Whole runs

  /** What a step brings in from outside: a request, or a queued cancel. */
  function Brings(step: Step): nat {
    match step
    case Arrive(rank) => 2 * rank + 1
    case QueueCancel(_) => 1
    case _ => 0
  }

  function Brought(steps: seq<Step>): nat {
    if steps == [] then 0 else Brings(steps[|steps| - 1]) + Brought(steps[..|steps| - 1])
  }

  /** Steps that do work: callbacks, and completions of futures somebody waits on. */
  predicate Works(w: World, step: Step) {
    step.Head? || (step.Outside? && step.future < |w.futures| && w.futures[step.future].callbacks != [])
  }

  function Worked(run: seq<World>, steps: seq<Step>): nat
    requires |run| == |steps| + 1
  {
    if steps == [] then 0
    else
      var n := |steps| - 1;
      (if Works(run[n], steps[n]) then 1 else 0) + Worked(run[..n + 1], steps[..n])
  }

  ghost predicate AllPay(run: seq<World>, steps: seq<Step>) {
    |run| == |steps| + 1 && forall i :: 0 <= i < |steps| && steps[i].Head? ==> Pays(run[i], steps[i].e)
  }

  lemma {:induction false} StepCost(w: World, step: Step)
    requires Inv(w, None) && Ranked(w) && Enabled(w, step) && (step.Head? ==> Pays(w, step.e))
    ensures Ranked(Next(w, step))
    ensures Potential(Next(w, step)) + (if Works(w, step) then 1 else 0) <= Potential(w) + Brings(step)
  {
    match step {
      case Head(e) =>
        hide Potential, RunHead, Inv;
        HeadProgresses(w, e);
      case Outside(f, ending) => SettledCost(w, f, ending);
      case QueueCancel(t) => QueuedCost(w, CancelCall(t));
      case Arrive(rank) => ArriveCost(w, rank);
    }
  }

  lemma {:induction false} ArriveCost(w: World, rank: nat)
    ensures Potential(Next(w, Arrive(rank))) == Potential(w) + 2 * rank + 1
  {
    hide QueueCost, Sum, CallbacksCost;
    var grown := w.(tasks := w.tasks + [FRESH], ranks := w.ranks + [rank]);
    QueuedCost(grown, LoopMachine.Wake(|w.tasks|, None));
    SumAppend(w.ranks, rank);
    NoCallbacks();
    assert Pending(w.tasks + [FRESH]) == Pending(w.tasks) + [0];
    SumAppend(Pending(w.tasks), 0);
  }

  lemma {:induction false} NoCallbacks()
    ensures CallbacksCost(FRESH.doneCallbacks) == 0
  {
  }

  /** The work done in a run is bounded by what was there and what was brought in,
      under every choice of failing calls: no task keeps a loop busy for ever. */
  lemma {:induction false} WorkIsBounded(run: seq<World>, steps: seq<Step>)
    requires IsRun(run, steps) && AllPay(run, steps) && Inv(run[0], None) && Ranked(run[0])
    ensures Worked(run, steps) + Potential(run[|steps|]) <= Potential(run[0]) + Brought(steps)
    ensures Ranked(run[|steps|])
    decreases |steps|
  {
    hide Potential, Next, Inv, Enabled, Works, Pays, Ranked, Brings;
    if steps != [] {
      var n := |steps| - 1;
      var before, earlier := run[..n + 1], steps[..n];
      WorkIsBounded(before, earlier);
      RunKeeps(run, steps, n);
      StepCost(run[n], steps[n]);
    }
  }

  /** Nothing is queued and nobody is parked. */
  predicate Idle(w: World) {
    w.ready == [] && forall f :: 0 <= f < |w.futures| ==> w.futures[f].callbacks == []
  }

  lemma {:induction false} IdleIsDone(w: World, t: nat)
    requires Inv(w, None) && Idle(w) && t < |w.tasks|
    ensures w.tasks[t].finished
  {
    assert TaskOk(w, t, None);
    assert InQueue([], t) == 0 && Times([], t) == 0;
  }

  /** The step is possible, does work, and its code is finite. */
  predicate Good(w: World, step: Step) {
    Enabled(w, step) && Works(w, step) && (step.Head? ==> Pays(w, step.e))
  }

  /** Everything outside the scheduler, as one choice of what comes next that may look at
      the whole past: how coroutines and callbacks answer, which calls fail, and when
      parked futures complete. All it must keep to is finite code, and to go on as long
      as something is queued or parked. */
  ghost predicate Fair(choose: seq<World> -> Step) {
    forall past :: past != [] && Inv(past[|past| - 1], None) && Ranked(past[|past| - 1]) && !Idle(past[|past| - 1]) ==>
      Good(past[|past| - 1], choose(past))
  }

  ghost predicate Chosen(run: seq<World>, steps: seq<Step>, from: nat, choose: seq<World> -> Step) {
    |run| == |steps| + 1 && forall i :: from <= i < |steps| ==> steps[i] == choose(run[..i + 1])
  }

  /** Progress: whatever run brought the loop here, and whatever the code on it and the
      world around it then do, within finite code and completed futures, the loop reaches
      the idle state in no more steps than the measure, with every task finished. */
  lemma {:induction false} LoopDrains(past: seq<World>, done: seq<Step>, choose: seq<World> -> Step)
      returns (run: seq<World>, steps: seq<Step>)
    requires IsRun(past, done) && Inv(past[0], None) && Ranked(past[|done|]) && Fair(choose)
    ensures IsRun(run, steps) && |done| <= |steps| && run[..|past|] == past && steps[..|done|] == done
    ensures Chosen(run, steps, |done|, choose)
    ensures |steps| - |done| <= Potential(past[|done|])
    ensures Idle(run[|steps|]) && forall t :: 0 <= t < |run[|steps|].tasks| ==> run[|steps|].tasks[t].finished
    decreases Potential(past[|done|])
  {
    hide Potential, Next, Inv, Enabled, Works, Pays, Ranked, Idle, IsRun;
    OneMore(past, done);
    var w := past[|done|];
    RunKeeps(past, done, |done|);
    if Idle(w) {
      run, steps := past, done;
      forall t | 0 <= t < |w.tasks| ensures w.tasks[t].finished {
        IdleIsDone(w, t);
      }
    } else {
      var step := choose(past);
      assert Good(past[|past| - 1], step);
      StepCost(w, step);
      NothingBrought(w, step);
      var longer, more := past + [Next(w, step)], done + [step];
      run, steps := LoopDrains(longer, more, choose);
      assert run[..|past|] == longer[..|past|] && steps[..|done|] == more[..|done|];
      assert steps[|done|] == more[|done|] && run[..|done| + 1] == past;
    }
  }

  lemma {:induction false} OneMore(past: seq<World>, done: seq<Step>)
    requires IsRun(past, done)
    ensures |past| == |done| + 1
    ensures forall step :: Enabled(past[|done|], step) ==> IsRun(past + [Next(past[|done|], step)], done + [step])
  {
    hide Next, Enabled;
  }

  lemma {:induction false} NothingBrought(w: World, step: Step)
    requires Works(w, step)
    ensures Brings(step) == 0
  {
  }

  /** In particular, for coroutines and callbacks that answer as they like, each within
      its rank, and futures that complete in any order once nothing else can run. */
  lemma {:induction false} CoroutinesDrain(w: World, answer: World -> Env, complete: World -> (nat, Ending))
      returns (run: seq<World>, steps: seq<Step>)
    requires Inv(w, None) && Ranked(w)
    requires forall v :: Inv(v, None) && Ranked(v) && v.ready != [] ==> Good(v, Head(answer(v)))
    requires forall v :: Inv(v, None) && v.ready == [] && !Idle(v) ==> Good(v, Outside(complete(v).0, complete(v).1))
    ensures IsRun(run, steps) && run[0] == w && |steps| <= Potential(w)
    ensures forall i :: 0 <= i < |steps| && run[i].ready != [] ==> steps[i] == Head(answer(run[i]))
    ensures Idle(run[|steps|]) && forall t :: 0 <= t < |run[|steps|].tasks| ==> run[|steps|].tasks[t].finished
  {
    hide Potential, Next, Inv, Good, Ranked, Idle;
    var choose := (past: seq<World>) =>
      if past == [] then QueueCancel(0)
      else
        var v := past[|past| - 1];
        if v.ready != [] then Head(answer(v)) else Outside(complete(v).0, complete(v).1);
    assert Fair(choose);
    var none: seq<Step> := [];
    run, steps := LoopDrains([w], none, choose);
    assert run[..1] == [w];
    forall i | 0 <= i < |steps| && run[i].ready != [] ensures steps[i] == Head(answer(run[i])) {
      assert steps[i] == choose(run[..i + 1]) && run[..i + 1][|run[..i + 1]| - 1] == run[i];
    }
  }

  /** Such code exists: coroutines that raise and callbacks that do nothing more. */
  function Raising(rank: nat): Env {
    Env(TurnEnv(Bare, FactoryRaised(OtherError(0)), true, true, true, true, [], StepRaised(OtherError(0)), true, []),
        Declined, [], [], Later, {}, rank)
  }

  function FirstParked(futures: seq<Future>): nat {
    if futures == [] || futures[0].callbacks != [] then 0 else 1 + FirstParked(futures[1..])
  }

  lemma {:induction false} ParkedFound(futures: seq<Future>, f: nat)
    requires f < |futures| && futures[f].callbacks != []
    ensures FirstParked(futures) < |futures| && futures[FirstParked(futures)].callbacks != []
  {
    if futures[0].callbacks == [] { ParkedFound(futures[1..], f - 1); }
  }

  lemma {:induction false} GoodExists(w: World)
    requires Inv(w, None) && Ranked(w) && !Idle(w)
    ensures Good(w, if w.ready != [] then Head(Raising(0)) else Outside(FirstParked(w.futures), Ending(None)))
  {
    if w.ready != [] {
      if w.ready[0].Wake? { HeadExists(w); }
    } else {
      var f :| 0 <= f < |w.futures| && w.futures[f].callbacks != [];
      ParkedFound(w.futures, f);
    }
  }

  /** The premise of `LoopDrains` can be met, whatever state the loop gets into. */
  lemma {:induction false} FairExists()
    ensures exists choose :: Fair(choose)
  {
    hide Inv, Ranked, Idle, Good;
    var choose := (past: seq<World>) =>
      if past == [] then QueueCancel(0)
      else
        var w := past[|past| - 1];
        if w.ready != [] then Head(Raising(0)) else Outside(FirstParked(w.futures), Ending(None));
    forall past: seq<World> | past != [] && Inv(past[|past| - 1], None) && Ranked(past[|past| - 1]) && !Idle(past[|past| - 1])
      ensures Good(past[|past| - 1], choose(past))
    {
      GoodExists(past[|past| - 1]);
    }
    assert Fair(choose);
  }
}
