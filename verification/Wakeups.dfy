/** No wake-up is lost and none is doubled: on an open loop, between callbacks,
    every unfinished task owns exactly one outstanding wake. */
module Wakeups {
  import opened Wrappers
  import opened Responses
  import opened TaskMachine
  import opened TaskProperties
  import opened LoopMachine

  // ----- Counting wakes

  function InQueue(ready: seq<Handle>, t: nat): nat {
    if ready == [] then 0
    else (if ready[0].Wake? && ready[0].task == t then 1 else 0) + InQueue(ready[1..], t)
  }

  function Times(callbacks: seq<nat>, t: nat): nat {
    if callbacks == [] then 0 else (if callbacks[0] == t then 1 else 0) + Times(callbacks[1..], t)
  }

  lemma {:induction false} InQueueAppend(a: seq<Handle>, b: seq<Handle>, t: nat)
    ensures InQueue(a + b, t) == InQueue(a, t) + InQueue(b, t)
  {
    if a == [] {
      assert a + b == b;
    } else {
      assert (a + b)[1..] == a[1..] + b;
      InQueueAppend(a[1..], b, t);
    }
  }

  lemma {:induction false} InQueueOne(h: Handle, t: nat)
    ensures InQueue([h], t) == if h.Wake? && h.task == t then 1 else 0
  {
  }

  lemma {:induction false} TimesAppend(callbacks: seq<nat>, u: nat, t: nat)
    ensures Times(callbacks + [u], t) == Times(callbacks, t) + if u == t then 1 else 0
  {
    if callbacks == [] {
      assert callbacks + [u] == [u] && [u][1..] == [];
    } else {
      assert (callbacks + [u])[1..] == callbacks[1..] + [u];
      TimesAppend(callbacks[1..], u, t);
    }
  }

  lemma {:induction false} WakesCount(callbacks: seq<nat>, future: nat, t: nat)
    ensures InQueue(Wakes(callbacks, future), t) == Times(callbacks, t)
  {
    if callbacks != [] {
      WakesCount(callbacks[1..], future, t);
      assert Wakes(callbacks, future)[1..] == Wakes(callbacks[1..], future);
    }
  }

  lemma {:induction false} NoTimes(t: nat)
    ensures Times([], t) == 0
  {
  }

  /** The wakes a future queues name it, and only tasks on its list. */
  lemma {:induction false} WakesTell(callbacks: seq<nat>, future: nat, t: nat)
    ensures forall i :: 0 <= i < |Wakes(callbacks, future)| ==>
              var h := Wakes(callbacks, future)[i];
              h.Wake? && h.future == Some(future) && (h.task == t ==> Times(callbacks, t) > 0)
  {
    if callbacks != [] {
      WakesTell(callbacks[1..], future, t);
      assert Wakes(callbacks, future)[1..] == Wakes(callbacks[1..], future);
    }
  }

  /** A task that is not in the queue has no entry there. */
  lemma {:induction false} NoEntry(ready: seq<Handle>, t: nat)
    requires InQueue(ready, t) == 0
    ensures forall i :: 0 <= i < |ready| && ready[i].Wake? ==> ready[i].task != t
  {
    if ready != [] {
      NoEntry(ready[1..], t);
      assert forall i :: 1 <= i < |ready| ==> ready[i] == ready[1..][i - 1];
    }
  }

  // ----- What a task owns

  /** The outstanding wakes of task `t` waiting on `waitingOn`: queue entries, and its
      done-callback on that future. */
  function Outstanding(w: World, t: nat, waitingOn: Option<Ref>): nat {
    InQueue(w.ready, t)
    + if waitingOn.Some? && waitingOn.value < |w.futures| then Times(w.futures[waitingOn.value].callbacks, t) else 0
  }

  /** The future, if any, has ended. */
  predicate Ended(w: World, future: Option<nat>) {
    future.Some? ==> future.value < |w.futures| && w.futures[future.value].ending.Some?
  }

  /** The queue entries of `t` name what it waits on: nothing, or a future that ended. */
  predicate Tells(w: World, t: nat, waitingOn: Option<Ref>) {
    forall i :: 0 <= i < |w.ready| && w.ready[i].Wake? && w.ready[i].task == t ==>
      w.ready[i].future == waitingOn && Ended(w, waitingOn)
  }

  /** Task `t`, waiting on `waitingOn`, has `n` outstanding wakes, is on no other
      future's list, and its queue entries say what it waits on. */
  predicate Owns(w: World, t: nat, waitingOn: Option<Ref>, n: nat) {
    && Tells(w, t, waitingOn)
    && (waitingOn.Some? ==> waitingOn.value < |w.futures|)
    && (forall f :: 0 <= f < |w.futures| && waitingOn != Some(f) ==> Times(w.futures[f].callbacks, t) == 0)
    && Outstanding(w, t, waitingOn) == n
  }

  /** A settled future has nobody left to wake. */
  predicate FuturesOk(w: World) {
    forall f :: 0 <= f < |w.futures| && w.futures[f].ending.Some? ==> w.futures[f].callbacks == []
  }

  /** Task `t` is unfinished; a task not yet arrived counts as one that owns nothing. */
  predicate Live(w: World, t: nat) {
    t < |w.tasks| ==> !w.tasks[t].finished
  }

  function WaitsOn(w: World, t: nat): Option<Ref> {
    if t < |w.tasks| then w.tasks[t].waitingOn else None
  }

  function Due(w: World, t: nat, running: Option<nat>): nat {
    if t < |w.tasks| && running != Some(t) then 1 else 0
  }

  /** Every task is well formed, and every unfinished one owns one wake; the one now
      running (if any) owns none and waits on nothing. */
  predicate TaskOk(w: World, t: nat, running: Option<nat>) {
    && (t < |w.tasks| ==> Rep(w.tasks[t]))
    && (Live(w, t) ==> Owns(w, t, WaitsOn(w, t), Due(w, t, running)))
    && (Live(w, t) && running == Some(t) ==> WaitsOn(w, t).None?)
  }

  ghost predicate Inv(w: World, running: Option<nat>) {
    && FuturesOk(w)
    && (forall t: nat :: TaskOk(w, t, running))
  }

  // ----- What the world's own moves keep

  lemma {:induction false} SettledOwns(w: World, f: nat, ending: Ending, t: nat, waitingOn: Option<Ref>, n: nat)
    requires Owns(w, t, waitingOn, n)
    ensures Owns(Settled(w, f, ending), t, waitingOn, n)
  {
    hide InQueue, Wakes, Times;
    if f < |w.futures| {
      var callbacks := w.futures[f].callbacks;
      InQueueAppend(w.ready, Wakes(callbacks, f), t);
      WakesCount(callbacks, f, t);
      WakesTell(callbacks, f, t);
      NoTimes(t);
    }
  }

  lemma {:induction false} QueuedOwns(w: World, h: Handle, t: nat, waitingOn: Option<Ref>, n: nat)
    requires Owns(w, t, waitingOn, n)
    requires h.Wake? && h.task == t ==> h.future == waitingOn && Ended(w, waitingOn)
    ensures Owns(w.(ready := w.ready + [h]), t, waitingOn, n + if h.Wake? && h.task == t then 1 else 0)
  {
    hide InQueue, Times;
    InQueueAppend(w.ready, [h], t);
    InQueueOne(h, t);
  }

  lemma {:induction false} WatchedOwns(w: World, u: nat, f: nat, t: nat, waitingOn: Option<Ref>, n: nat)
    requires Owns(w, t, waitingOn, n) && f < |w.futures| && (u == t ==> waitingOn == Some(f))
    ensures Owns(Watched(w, u, f), t, waitingOn, n + if u == t then 1 else 0)
  {
    hide InQueue, Times;
    if w.futures[f].ending.Some? {
      QueuedOwns(w, Wake(u, Some(f)), t, waitingOn, n);
    } else {
      TimesAppend(w.futures[f].callbacks, u, t);
    }
  }

  /** Calls that concern no task's wakes: finishing, and cancelling a future. */
  predicate Wakeless(e: Effect) {
    !(e.AddDoneCallback? && e.ok) && !(e.CallSoonSelf? && e.ok)
  }

  lemma {:induction false} AppliedOwns(w: World, u: nat, e: Effect, settles: Settling, failing: set<Ref>,
      t: nat, waitingOn: Option<Ref>, n: nat)
    requires Owns(w, t, waitingOn, n) && Wakeless(e)
    ensures Owns(Applied(w, u, e, settles, failing), t, waitingOn, n)
  {
    hide Owns, Settled;
    match e {
      case CancelFuture(f, reply) =>
        if settles.AtOnce? { SettledOwns(w, f, Cancellation(settles.message), t, waitingOn, n); }
      case Fire(callback) => QueuedOwns(w, UserCallback(callback.weight), t, waitingOn, n);
      case _ =>
    }
  }

  lemma {:induction false} AppliedFutures(w: World, u: nat, e: Effect, settles: Settling, failing: set<Ref>)
    requires FuturesOk(w)
    ensures FuturesOk(Applied(w, u, e, settles, failing))
  {
  }

  predicate AllWakeless(effects: seq<Effect>) {
    forall i :: 0 <= i < |effects| ==> Wakeless(effects[i])
  }

  lemma {:induction false} AppliedAllOwns(w: World, u: nat, effects: seq<Effect>, settles: Settling, failing: set<Ref>,
      t: nat, waitingOn: Option<Ref>, n: nat)
    requires Owns(w, t, waitingOn, n) && AllWakeless(effects)
    ensures Owns(AppliedAll(w, u, effects, settles, failing), t, waitingOn, n)
    decreases |effects|
  {
    hide Owns, Applied;
    if effects != [] {
      AppliedOwns(w, u, effects[0], settles, failing, t, waitingOn, n);
      AppliedAllOwns(Applied(w, u, effects[0], settles, failing), u, effects[1..], settles, failing, t, waitingOn, n);
    }
  }

  lemma {:induction false} AppliedAllFutures(w: World, u: nat, effects: seq<Effect>, settles: Settling, failing: set<Ref>)
    requires FuturesOk(w)
    ensures FuturesOk(AppliedAll(w, u, effects, settles, failing))
    decreases |effects|
  {
    hide FuturesOk, Applied;
    if effects != [] {
      AppliedFutures(w, u, effects[0], settles, failing);
      AppliedAllFutures(Applied(w, u, effects[0], settles, failing), u, effects[1..], settles, failing);
    }
  }

  lemma {:induction false} SameQueues(w: World, v: World, t: nat, waitingOn: Option<Ref>, n: nat)
    requires Owns(w, t, waitingOn, n) && v.futures == w.futures && v.ready == w.ready
    ensures Owns(v, t, waitingOn, n)
  {
  }

  /** Installing a state that waits as before, with wakeless calls, keeps what every
      task owns. */
  lemma {:induction false} InstalledKeeps(w: World, u: nat, state: TaskState, effects: seq<Effect>, settles: Settling,
      failing: set<Ref>, running: Option<nat>)
    requires u < |w.tasks| && Inv(w, running) && Rep(state) && AllWakeless(effects)
    requires !state.finished ==> !w.tasks[u].finished && state.waitingOn == w.tasks[u].waitingOn
    ensures Inv(Installed(w, u, state, effects, settles, failing), running)
  {
    hide Owns, Rep, AllWakeless, FuturesOk, AppliedAll;
    var moved := w.(tasks := w.tasks[u := state]);
    var r := Installed(w, u, state, effects, settles, failing);
    assert FuturesOk(moved) by { SameFutures(w, moved); }
    AppliedAllFutures(moved, u, effects, settles, failing);
    forall t: nat ensures TaskOk(r, t, running) {
      assert TaskOk(w, t, running);
      if Live(moved, t) {
        SameQueues(w, moved, t, WaitsOn(w, t), Due(w, t, running));
        AppliedAllOwns(moved, u, effects, settles, failing, t, WaitsOn(w, t), Due(w, t, running));
      }
    }
  }

  lemma {:induction false} SameFutures(w: World, v: World)
    requires FuturesOk(w) && v.futures == w.futures
    ensures FuturesOk(v)
  {
  }

  // ----- What Python code keeps

  lemma {:induction false} DropsWakeless(callbacks: seq<Callback>)
    ensures AllWakeless(Drops(callbacks))
  {
    if callbacks != [] {
      DropsWakeless(callbacks[1..]);
    }
  }

  lemma {:induction false} FiresWakeless(callbacks: seq<Callback>)
    ensures AllWakeless(Fires(callbacks))
  {
    if callbacks != [] {
      FiresWakeless(callbacks[1..]);
    }
  }

  lemma {:induction false} OpWakeless(s: TaskState, op: Op)
    ensures AllWakeless(OpOutcome(s, op).effects)
  {
    hide Drops, Without, Gone;
    if op.RemoveCallback? { DropsWakeless(Gone(s.doneCallbacks, op.equal)); }
  }

  lemma {:induction false} FinishWakeless(s: TaskState, response: HandlerResponse, completion: Completion)
    ensures AllWakeless(Finish(s, response, completion).effects)
  {
    FiresWakeless(s.doneCallbacks);
  }

  lemma {:induction false} ActKeeps(w: World, act: Act, failing: set<Ref>, running: Option<nat>)
    requires Inv(w, running)
    ensures Inv(Done(w, act, failing), running)
  {
    hide Rep, Owns, OpOutcome, Installed;
    match act {
      case OnTask(u, op, settles) =>
        if u < |w.tasks| {
          assert TaskOk(w, u, running);
          OpKeepsRep(w.tasks[u], op);
          OpWakeless(w.tasks[u], op);
          var o := OpOutcome(w.tasks[u], op);
          InstalledKeeps(w, u, o.state, o.effects, settles, failing, running);
        }
      case SettleFuture(f, ending) => SettledKeeps(w, f, ending, running);
      case NewFuture => NewFutureKeeps(w, running);
      case Soon(weight) => QueuedKeeps(w, UserCallback(weight), running);
    }
  }

  lemma {:induction false} SettledKeeps(w: World, f: nat, ending: Ending, running: Option<nat>)
    requires Inv(w, running)
    ensures Inv(Settled(w, f, ending), running)
  {
    hide Rep, Owns;
    var r := Settled(w, f, ending);
    forall t: nat ensures TaskOk(r, t, running) {
      assert TaskOk(w, t, running);
      if Live(w, t) { SettledOwns(w, f, ending, t, WaitsOn(w, t), Due(w, t, running)); }
    }
  }

  lemma {:induction false} NewFutureKeeps(w: World, running: Option<nat>)
    requires Inv(w, running)
    ensures Inv(w.(futures := w.futures + [Future(None, [])]), running)
  {
    hide Rep, InQueue;
    var r := w.(futures := w.futures + [Future(None, [])]);
    forall t: nat ensures TaskOk(r, t, running) {
      assert TaskOk(w, t, running);
      assert Times([], t) == 0;
    }
  }

  /** A handle that wakes nobody changes nothing. */
  lemma {:induction false} QueuedKeeps(w: World, h: Handle, running: Option<nat>)
    requires Inv(w, running) && !h.Wake?
    ensures Inv(w.(ready := w.ready + [h]), running)
  {
    hide Rep, Owns;
    var r := w.(ready := w.ready + [h]);
    forall t: nat ensures TaskOk(r, t, running) {
      assert TaskOk(w, t, running);
      if Live(w, t) { QueuedOwns(w, h, t, WaitsOn(w, t), Due(w, t, running)); }
    }
  }

  lemma {:induction false} ActsKeep(w: World, acts: seq<Act>, failing: set<Ref>, running: Option<nat>)
    requires Inv(w, running)
    ensures Inv(DoneAll(w, acts, failing), running)
    decreases |acts|
  {
    hide Inv, Done;
    if acts != [] {
      ActKeeps(w, acts[0], failing, running);
      ActsKeep(Done(w, acts[0], failing), acts[1..], failing, running);
    }
  }

  // ----- What a turn keeps

  /** A finished task needs no wake, running or not. */
  lemma {:induction false} FinishedSteps(w: World, t: nat)
    requires t < |w.tasks| && w.tasks[t].finished && Inv(w, Some(t))
    ensures Inv(w, None)
  {
    hide Rep, Owns;
    forall u: nat ensures TaskOk(w, u, None) {
      assert TaskOk(w, u, Some(t));
    }
  }

  lemma {:induction false} AbandonKeeps(w: World, t: nat, e: Env)
    requires t < |w.tasks| && Inv(w, Some(t))
    ensures Inv(AbandonIn(w, t, e), None)
  {
    hide Rep, Inv, Finish, Installed, DoneAll, InternalError;
    var closed := if w.tasks[t].coroutine.None? then w else DoneAll(w, e.closeActs, e.failing);
    ActsKeep(w, e.closeActs, e.failing, Some(t));
    InvRep(closed, t, Some(t));
    var o := Finish(closed.tasks[t], InternalError(), Aborted);
    FinishKeepsRep(closed.tasks[t], InternalError(), Aborted);
    FinishWakeless(closed.tasks[t], InternalError(), Aborted);
    InstalledKeeps(closed, t, o.state, o.effects, e.settles, e.failing, Some(t));
    InstalledTask(closed, t, o.state, o.effects, e.settles, e.failing);
    FinishedSteps(AbandonIn(w, t, e), t);
  }

  lemma {:induction false} InvRep(w: World, t: nat, running: Option<nat>)
    requires t < |w.tasks| && Inv(w, running)
    ensures Rep(w.tasks[t])
  {
    hide Rep, Owns;
    assert TaskOk(w, t, running);
  }

  lemma {:induction false} InstalledTask(w: World, t: nat, state: TaskState, effects: seq<Effect>, settles: Settling, failing: set<Ref>)
    requires t < |w.tasks|
    ensures |Installed(w, t, state, effects, settles, failing).tasks| == |w.tasks|
    ensures Installed(w, t, state, effects, settles, failing).tasks[t] == state
    ensures |Installed(w, t, state, effects, settles, failing).futures| == |w.futures|
  {
  }

  /** The queue head was a wake of `t`, who now owns nothing; once the turn has
      cleared `waiting_on`, `t` is the running task. */
  lemma {:induction false} PoppedKeeps(w: World, t: nat)
    requires w.ready != [] && w.ready[0].Wake? && w.ready[0].task == t && t < |w.tasks| && Inv(w, None)
    ensures w.tasks[t].finished ==> Inv(w.(ready := w.ready[1..]), None)
    ensures !w.tasks[t].finished ==>
              Inv(w.(ready := w.ready[1..], tasks := w.tasks[t := Claimed(w.tasks[t])]), Some(t))
  {
    var popped := w.(ready := w.ready[1..]);
    var claimed := popped.(tasks := w.tasks[t := Claimed(w.tasks[t])]);
    forall u: nat
      ensures u != t || w.tasks[t].finished ==> TaskOk(popped, u, None)
      ensures !w.tasks[t].finished ==> TaskOk(claimed, u, Some(t))
    {
      assert TaskOk(w, u, None);
      hide InQueue, Times;
      HeadCount(w.ready, u);
      if u == t && !w.tasks[t].finished { NoEntry(popped.ready, t); }
    }
  }

  lemma {:induction false} HeadCount(ready: seq<Handle>, t: nat)
    requires ready != []
    ensures InQueue(ready, t) == (if ready[0].Wake? && ready[0].task == t then 1 else 0) + InQueue(ready[1..], t)
  {
  }

  lemma {:induction false} OtherHeadKeeps(w: World)
    requires w.ready != [] && !w.ready[0].Wake? && Inv(w, None)
    ensures Inv(w.(ready := w.ready[1..]), None)
  {
    var popped := w.(ready := w.ready[1..]);
    forall u: nat ensures TaskOk(popped, u, None) {
      assert TaskOk(w, u, None);
      hide InQueue, Times;
      HeadCount(w.ready, u);
    }
  }

  /** The running task takes up one wake of its own and rests. */
  lemma {:induction false} RestsWithWake(w: World, r: World, t: nat, state: TaskState)
    requires t < |w.tasks| && Inv(w, Some(t)) && r.tasks == w.tasks[t := state] && FuturesOk(r)
    requires Rep(state) && !state.finished && Owns(r, t, state.waitingOn, 1)
    requires forall u: nat :: u != t && Live(w, u) ==> Owns(r, u, WaitsOn(w, u), Due(w, u, None))
    ensures Inv(r, None)
  {
    hide Rep, Owns, FuturesOk;
    forall u: nat ensures TaskOk(r, u, None) {
      assert TaskOk(w, u, Some(t));
    }
  }

  lemma {:induction false} RescheduleKeeps(w: World, t: nat, state: TaskState, e: Env)
    requires t < |w.tasks| && Inv(w, Some(t)) && !w.tasks[t].finished
    requires Rep(state) && !state.finished && state.waitingOn.None?
    ensures Inv(Installed(w, t, state, [CallSoonSelf(true)], e.settles, e.failing), None)
  {
    var moved := w.(tasks := w.tasks[t := state]);
    var r := moved.(ready := moved.ready + [Wake(t, None)]);
    OneEffect(moved, t, CallSoonSelf(true), e);
    hide Rep, AppliedAll, InQueue, Times;
    assert TaskOk(w, t, Some(t));
    SameQueues(w, moved, t, None, 0);
    QueuedOwns(moved, Wake(t, None), t, None, 0);
    forall u: nat | u != t && Live(w, u) ensures Owns(r, u, WaitsOn(w, u), Due(w, u, None)) {
      assert TaskOk(w, u, Some(t));
      SameQueues(w, moved, u, WaitsOn(w, u), Due(w, u, None));
      QueuedOwns(moved, Wake(t, None), u, WaitsOn(w, u), Due(w, u, None));
    }
    RestsWithWake(w, r, t, state);
  }

  lemma {:induction false} OneEffect(w: World, t: nat, effect: Effect, e: Env)
    ensures AppliedAll(w, t, [effect], e.settles, e.failing) == Applied(w, t, effect, e.settles, e.failing)
  {
  }

  lemma {:induction false} AppliedSplit(w: World, t: nat, a: seq<Effect>, b: seq<Effect>, settles: Settling, failing: set<Ref>)
    ensures AppliedAll(w, t, a + b, settles, failing)
         == AppliedAll(AppliedAll(w, t, a, settles, failing), t, b, settles, failing)
    decreases |a|
  {
    hide Applied;
    if a == [] {
      assert a + b == b;
    } else {
      assert (a + b)[1..] == a[1..] + b;
      AppliedSplit(Applied(w, t, a[0], settles, failing), t, a[1..], b, settles, failing);
    }
  }

  /** Parking: the running task's done-callback on `f` is its one wake, also when the
      future is done already, and also when a cancellation lands on it at once. */
  lemma {:induction false} ParkKeeps(w: World, t: nat, state: TaskState, f: nat, more: seq<Effect>, e: Env)
    requires t < |w.tasks| && Inv(w, Some(t)) && !w.tasks[t].finished && f < |w.futures|
    requires Rep(state) && !state.finished && state.waitingOn == Some(f) && AllWakeless(more)
    ensures Inv(Installed(w, t, state, [ClearBlocking(f), AddDoneCallback(f, true)] + more, e.settles, e.failing), None)
  {
    var moved := w.(tasks := w.tasks[t := state]);
    var watched := Watched(moved, t, f);
    AppliedSplit(moved, t, [ClearBlocking(f), AddDoneCallback(f, true)], more, e.settles, e.failing);
    AppliedSplit(moved, t, [ClearBlocking(f)], [AddDoneCallback(f, true)], e.settles, e.failing);
    OneEffect(moved, t, ClearBlocking(f), e);
    OneEffect(moved, t, AddDoneCallback(f, true), e);
    assert [ClearBlocking(f)] + [AddDoneCallback(f, true)] == [ClearBlocking(f), AddDoneCallback(f, true)];
    var r := AppliedAll(watched, t, more, e.settles, e.failing);
    assert watched.tasks == moved.tasks;
    assert FuturesOk(watched) by { SameFutures(w, moved); }
    hide Rep, AppliedAll, InQueue, Times, AllWakeless, Watched;
    assert TaskOk(w, t, Some(t));
    SameQueues(w, moved, t, None, 0);
    StartsWaiting(moved, t, f);
    WatchedOwns(moved, t, f, t, Some(f), 0);
    AppliedAllOwns(watched, t, more, e.settles, e.failing, t, Some(f), 1);
    AppliedAllFutures(watched, t, more, e.settles, e.failing);
    forall u: nat | u != t && Live(w, u) ensures Owns(r, u, WaitsOn(w, u), Due(w, u, None)) {
      assert TaskOk(w, u, Some(t));
      SameQueues(w, moved, u, WaitsOn(w, u), Due(w, u, None));
      WatchedOwns(moved, t, f, u, WaitsOn(w, u), Due(w, u, None));
      AppliedAllOwns(watched, t, more, e.settles, e.failing, u, WaitsOn(w, u), Due(w, u, None));
    }
    RestsWithWake(w, r, t, state);
  }

  /** A task on nobody's list may say it waits on `f`. */
  lemma {:induction false} StartsWaiting(w: World, t: nat, f: nat)
    requires Owns(w, t, None, 0) && f < |w.futures|
    ensures Owns(w, t, Some(f), 0)
  {
    NoEntry(w.ready, t);
  }

  /** The future a step yields is one the world knows. */
  predicate Known(futures: nat, result: StepResult) {
    result.StepYielded? ==> result.future < futures
  }

  lemma {:induction false} SettleKeeps(w: World, t: nat, e: Env)
    requires t < |w.tasks| && Inv(w, Some(t)) && !w.tasks[t].finished && w.tasks[t].coroutine.Some?
    requires w.tasks[t].deferredThrow.None? && Known(|w.futures|, e.turn.result)
    requires !Settle(w.tasks[t], e.turn).Advance?
    ensures Inv(Concluded(w, t, Settle(w.tasks[t], e.turn), e), None)
  {
    hide Rep, Owns, Installed, AbandonIn, Settle, Inv;
    var s := w.tasks[t];
    var p := Settle(s, e.turn);
    RunningWaits(w, t);
    SettleKeepsRep(s, e.turn);
    SettleWakeless(s, e.turn);
    if p.Stop? && p.state.finished {
      InstalledKeeps(w, t, p.state, p.effects, e.settles, e.failing, Some(t));
      InstalledTask(w, t, p.state, p.effects, e.settles, e.failing);
      FinishedSteps(Installed(w, t, p.state, p.effects, e.settles, e.failing), t);
    } else if p.Abort? {
      InstalledKeeps(w, t, p.state, p.effects, e.settles, e.failing, Some(t));
      InstalledTask(w, t, p.state, p.effects, e.settles, e.failing);
      AbandonKeeps(Installed(w, t, p.state, p.effects, e.settles, e.failing), t, e);
    } else {
      YieldKeeps(w, t, e);
    }
  }

  lemma {:induction false} RunningWaits(w: World, t: nat)
    requires t < |w.tasks| && Inv(w, Some(t)) && !w.tasks[t].finished
    ensures Rep(w.tasks[t]) && w.tasks[t].waitingOn.None?
  {
    hide Rep, Owns;
    assert TaskOk(w, t, Some(t));
  }

  /** Unless the task goes on, settling its step wakes nobody. */
  lemma {:induction false} SettleWakeless(s: TaskState, turn: TurnEnv)
    requires !s.finished && s.waitingOn.None?
    ensures var p := Settle(s, turn);
            p.Abort? || p.state.finished ==>
              AllWakeless(p.effects) && (!p.state.finished ==> p.state.waitingOn.None?)
  {
    hide Finish, InternalError, ReturnResponse;
    match turn.result {
      case StepReturned(value) => FinishWakeless(s, ReturnResponse(value), Returned(value));
      case StepRaised(error) =>
        FinishWakeless(s, InternalError(), if error.CancelledError? then Cancelled(error.message) else Raised(error));
      case _ =>
    }
  }

  lemma {:induction false} YieldKeeps(w: World, t: nat, e: Env)
    requires t < |w.tasks| && Inv(w, Some(t)) && !w.tasks[t].finished && w.tasks[t].waitingOn.None?
    requires Known(|w.futures|, e.turn.result)
    requires var p := Settle(w.tasks[t], e.turn); p.Stop? && !p.state.finished && Rep(p.state)
    ensures var p := Settle(w.tasks[t], e.turn);
            Inv(Installed(w, t, p.state, p.effects, e.settles, e.failing), None)
  {
    var s := w.tasks[t];
    var p := Settle(s, e.turn);
    if e.turn.result.StepYielded? && Misuse(e.turn.result.park).None? {
      var f, park := e.turn.result.future, e.turn.result.park;
      var more := if s.mustCancel then [CancelFuture(f, park.cancel)] else [];
      assert p.effects == [ClearBlocking(f), AddDoneCallback(f, true)] + more;
      hide Settle, Rep, Inv, Installed;
      ParkKeeps(w, t, p.state, f, more, e);
    } else {
      YieldsToQueue(s, e.turn);
      hide Settle, Rep, Inv, Installed;
      RescheduleKeeps(w, t, p.state, e);
    }
  }

  lemma {:induction false} YieldsToQueue(s: TaskState, turn: TurnEnv)
    requires s.waitingOn.None? && !s.finished
    requires Settle(s, turn).Stop? && !Settle(s, turn).state.finished
    requires !(turn.result.StepYielded? && Misuse(turn.result.park).None?)
    ensures Settle(s, turn).effects == [CallSoonSelf(true)] && Settle(s, turn).state.waitingOn.None?
  {
  }

  lemma {:induction false} InstalledOver(w: World, v: World, t: nat, state: TaskState, effects: seq<Effect>, e: Env)
    requires t < |w.tasks| && v == w.(tasks := w.tasks[t := Claimed(w.tasks[t])])
    ensures Installed(v, t, state, effects, e.settles, e.failing) == Installed(w, t, state, effects, e.settles, e.failing)
  {
    hide AppliedAll;
    assert v.tasks[t := state] == w.tasks[t := state];
  }

  lemma {:induction false} BeginWakeless(s: TaskState, turn: TurnEnv)
    ensures AllWakeless(Begin(s, turn).effects)
  {
    hide Finish, InternalError, PendingThrow;
    var c := Claimed(s);
    FinishWakeless(c, InternalError(), Cancelled(s.cancelMessage));
    FinishWakeless(c, InternalError(), Aborted);
    if turn.factory.FactoryRaised? { FinishWakeless(c, InternalError(), Raised(turn.factory.error)); }
  }

  /** The futures some acts create. */
  function Created(acts: seq<Act>): nat {
    if acts == [] then 0 else (if acts[0].NewFuture? then 1 else 0) + Created(acts[1..])
  }

  lemma {:induction false} ActsCreate(w: World, acts: seq<Act>, failing: set<Ref>)
    ensures |DoneAll(w, acts, failing).futures| == |w.futures| + Created(acts)
    decreases |acts|
  {
    hide OpOutcome;
    if acts != [] {
      ActsCreate(Done(w, acts[0], failing), acts[1..], failing);
    }
  }

  /** A turn consumes the wake it was run by and leaves exactly one behind, unless it
      finishes the task. */
  lemma {:induction false} TurnKeeps(w: World, t: nat, e: Env)
    requires w.ready != [] && w.ready[0].Wake? && w.ready[0].task == t && t < |w.tasks| && Inv(w, None)
    requires Known(|w.futures| + Created(e.acts), e.turn.result)
    ensures Inv(TurnIn(w.(ready := w.ready[1..]), t, e), None)
  {
    hide Begin, Inv, Rep, Installed, AbandonIn, Settle, DoneAll, Claimed, RunOps;
    var popped := w.(ready := w.ready[1..]);
    var s := w.tasks[t];
    PoppedKeeps(w, t);
    InvRep(w, t, None);
    BeginKeepsRep(s, e.turn);
    BeginWakeless(s, e.turn);
    var p := Begin(s, e.turn);
    if s.finished {
      NothingInstalled(popped, t, e);
    } else {
      var claimed := popped.(tasks := popped.tasks[t := Claimed(s)]);
      assert claimed == w.(ready := w.ready[1..], tasks := w.tasks[t := Claimed(w.tasks[t])]);
      var installed := Installed(popped, t, p.state, p.effects, e.settles, e.failing);
      ClaimedWaits(s);
      InstalledOver(popped, claimed, t, p.state, p.effects, e);
      InstalledKeeps(claimed, t, p.state, p.effects, e.settles, e.failing, Some(t));
      InstalledTask(popped, t, p.state, p.effects, e.settles, e.failing);
      if p.Stop? {
        FinishedSteps(installed, t);
      } else if p.Abort? {
        AbandonKeeps(installed, t, e);
      } else {
        RunStepKeeps(installed, popped, t, e);
      }
    }
  }

  lemma {:induction false} ClaimedWaits(s: TaskState)
    ensures Claimed(s).waitingOn.None? && Claimed(s).finished == s.finished
  {
  }

  lemma {:induction false} RunStepKeeps(entered: World, w: World, t: nat, e: Env)
    requires t < |entered.tasks| && Inv(entered, Some(t)) && |entered.futures| == |w.futures|
    requires MidTurn(entered.tasks[t]) && entered.tasks[t].coroutine.Some?
    requires Known(|w.futures| + Created(e.acts), e.turn.result)
    ensures var ran := DoneAll(entered, e.acts, e.failing);
            !Settle(ran.tasks[t], e.turn).Advance? && Inv(Concluded(ran, t, Settle(ran.tasks[t], e.turn), e), None)
  {
    hide Inv, Rep, Installed, AbandonIn, Settle, DoneAll, RunOps;
    var ran := DoneAll(entered, e.acts, e.failing);
    ActsKeep(entered, e.acts, e.failing, Some(t));
    ActsProject(entered, e.acts, e.failing, t);
    OpsKeepRep(entered.tasks[t], OpsOn(t, e.acts));
    ActsCreate(entered, e.acts, e.failing);
    SettleKeepsRep(ran.tasks[t], e.turn);
    SettleKeeps(ran, t, e);
  }

  lemma {:induction false} NothingInstalled(w: World, t: nat, e: Env)
    requires t < |w.tasks| && w.tasks[t].finished
    ensures TurnIn(w, t, e) == w
  {
  }

  // ----- Whole runs of the loop

  /** What can happen to an open loop between callbacks: it runs the head of its
      queue, an outside event settles a future, a scheduled request arrives, a
      `cancel` is queued for a task. */
  datatype Step = Head(e: Env) | Outside(future: nat, ending: Ending) | Arrive(rank: nat) | QueueCancel(task: nat)

  predicate Enabled(w: World, step: Step) {
    step.Head? ==> w.ready != [] && Known(|w.futures| + Created(step.e.acts), step.e.turn.result)
  }

  function Next(w: World, step: Step): World
    requires Enabled(w, step)
  {
    match step
    case Head(e) => RunHead(w, e)
    case Outside(f, ending) => Settled(w, f, ending)
    case Arrive(rank) =>
      w.(tasks := w.tasks + [FRESH], ranks := w.ranks + [rank], ready := w.ready + [Wake(|w.tasks|, None)])
    case QueueCancel(t) => w.(ready := w.ready + [CancelCall(t)])
  }

  /** A request arrives: its task is fresh and the entry just queued is its one wake. */
  lemma {:induction false} ArriveKeeps(w: World, rank: nat)
    requires Inv(w, None)
    ensures Inv(Next(w, Arrive(rank)), None)
  {
    hide Owns;
    FreshRep();
    var r := Next(w, Arrive(rank));
    var grown := w.(tasks := r.tasks, ranks := r.ranks);
    forall t: nat ensures TaskOk(r, t, None) {
      assert TaskOk(w, t, None);
      if Live(w, t) {
        SameQueues(w, grown, t, WaitsOn(w, t), Due(w, t, None));
        QueuedOwns(grown, Wake(|w.tasks|, None), t, WaitsOn(w, t), Due(w, t, None));
      }
    }
  }

  /** A wake in the queue always names a task that exists. */
  lemma {:induction false} HeadExists(w: World)
    requires Inv(w, None) && w.ready != [] && w.ready[0].Wake?
    ensures w.ready[0].task < |w.tasks|
  {
    var t := w.ready[0].task;
    assert TaskOk(w, t, None);
    HeadCount(w.ready, t);
  }

  lemma {:induction false} StepKeeps(w: World, step: Step)
    requires Inv(w, None) && Enabled(w, step)
    ensures Inv(Next(w, step), None)
  {
    hide Inv, TurnIn, LoopMachine.Done, DoneAll, Settled;
    match step {
      case Outside(f, ending) => SettledKeeps(w, f, ending, None);
      case Arrive(rank) => ArriveKeeps(w, rank);
      case QueueCancel(t) => QueuedKeeps(w, CancelCall(t), None);
      case Head(e) =>
        var popped := w.(ready := w.ready[1..]);
        var h := w.ready[0];
        if h.Wake? {
          HeadExists(w);
          var woken := WokenBy(w, h.future, e);
          TurnKeeps(w, h.task, woken);
          RanksAside(TurnIn(popped, h.task, woken), Next(w, step));
        } else {
          OtherHeadKeeps(w);
          if h.CancelCall? {
            ActKeeps(popped, OnTask(h.task, Cancel(None, e.reply), e.settles), e.failing, None);
          } else {
            ActsKeep(popped, e.acts, e.failing, None);
          }
        }
    }
  }

  lemma {:induction false} RanksAside(w: World, v: World)
    requires Inv(w, None) && v.tasks == w.tasks && v.futures == w.futures && v.ready == w.ready
    ensures Inv(v, None)
  {
    hide Owns, Rep;
    forall t: nat ensures TaskOk(v, t, None) {
      assert TaskOk(w, t, None);
      if Live(w, t) { SameQueues(w, v, t, WaitsOn(w, t), Due(w, t, None)); }
    }
  }

  ghost predicate IsRun(run: seq<World>, steps: seq<Step>) {
    && |run| == |steps| + 1
    && (forall i :: 0 <= i < |steps| ==> Enabled(run[i], steps[i]) && run[i + 1] == Next(run[i], steps[i]))
  }

  /** A loop that has just been started. */
  const EMPTY: World := World([], [], [], [])

  lemma {:induction false} RunKeeps(run: seq<World>, steps: seq<Step>, i: nat)
    requires IsRun(run, steps) && i < |run| && Inv(run[0], None)
    ensures Inv(run[i], None)
  {
    hide Next, Inv, Enabled;
    if i > 0 {
      RunKeeps(run, steps, i - 1);
      StepKeeps(run[i - 1], steps[i - 1]);
    }
  }

  lemma {:induction false} EmptyInv()
    ensures Inv(EMPTY, None)
  {
  }

  /** No lost and no doubled wake-up: in every state of every run, each unfinished task
      has exactly one outstanding wake, a queue entry or its done-callback on the
      future it waits on; with no future to wait on, it is in the queue. */
  lemma {:induction false} ExactlyOneWake(run: seq<World>, steps: seq<Step>, i: nat, t: nat)
    requires IsRun(run, steps) && run[0] == EMPTY && i < |run| && t < |run[i].tasks| && !run[i].tasks[t].finished
    ensures var w, waitingOn := run[i], run[i].tasks[t].waitingOn;
            && (waitingOn.None? ==> InQueue(w.ready, t) == 1)
            && (waitingOn.Some? ==>
                  && waitingOn.value < |w.futures|
                  && InQueue(w.ready, t) + Times(w.futures[waitingOn.value].callbacks, t) == 1)
            && (forall f :: 0 <= f < |w.futures| && waitingOn != Some(f) ==> Times(w.futures[f].callbacks, t) == 0)
  {
    EmptyInv();
    RunKeeps(run, steps, i);
    assert TaskOk(run[i], t, None);
  }
}
