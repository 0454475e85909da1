/** One event loop with many tasks on it: the FIFO ready queue, the futures tasks
    park on, and Python code that may act on any of them while it runs. One loop
    callback is one step, because every task transition happens on the loop thread. */
module LoopMachine {
  import opened Wrappers
  import opened Responses
  import opened TaskMachine

  /** How a future ended: what its `result()` raises, if anything. */
  datatype Ending = Ending(error: Option<Exc>)

  /** A future: ended or not, with the tasks its completion will wake. */
  datatype Future = Future(ending: Option<Ending>, callbacks: seq<nat>)

  /** What a future that absorbs a cancel does with it: end cancelled at once, with a
      message, or go on and end some other time. */
  datatype Settling = Later | AtOnce(message: Option<Ref>)

  /** A ready-queue entry: a task's turn (with the future that woke it), a queued
      `cancel` call, or some other callback that will itself queue at most `weight`. */
  datatype Handle = Wake(task: nat, future: Option<nat>) | CancelCall(task: nat) | UserCallback(weight: nat)

  /** `ranks` bound what each coroutine will still do; only progress reads them. */
  datatype World = World(tasks: seq<TaskState>, ranks: seq<nat>, futures: seq<Future>, ready: seq<Handle>)

  /** What Python code does while it runs on the loop: call a task (`settles` says
      what a future that absorbs a cancel does), settle or create a future, queue a
      callback. */
  datatype Act = OnTask(task: nat, op: Op, settles: Settling) | SettleFuture(future: nat, ending: Ending) | NewFuture | Soon(weight: nat)

  /** The choices of one callback: Python's answers, what its code does while a
      coroutine runs or closes, and which `call_soon` calls for callbacks fail. */
  datatype Env = Env(turn: TurnEnv, reply: CancelReply, acts: seq<Act>, closeActs: seq<Act>,
                     settles: Settling, failing: set<Ref>, newRank: nat)

  // ----- The world around a task

  function Wakes(callbacks: seq<nat>, future: nat): seq<Handle> {
    if callbacks == [] then [] else [Wake(callbacks[0], Some(future))] + Wakes(callbacks[1..], future)
  }

  /** A future completes or is cancelled, for good: its callbacks go to the queue. */
  function Settled(w: World, future: nat, ending: Ending): World {
    if future >= |w.futures| || w.futures[future].ending.Some? then w
    else
      w.(futures := w.futures[future := Future(Some(ending), [])],
         ready := w.ready + Wakes(w.futures[future].callbacks, future))
  }

  /** `add_done_callback`: at once to the queue if the future is done already. */
  function Watched(w: World, task: nat, future: nat): World {
    if future >= |w.futures| then w
    else if w.futures[future].ending.Some? then w.(ready := w.ready + [Wake(task, Some(future))])
    else
      var f := w.futures[future];
      w.(futures := w.futures[future := f.(callbacks := f.callbacks + [task])])
  }

  function Cancellation(message: Option<Ref>): Ending {
    Ending(Some(CancelledError(message)))
  }

  /** What a task's call does to the world. */
  function Applied(w: World, task: nat, effect: Effect, settles: Settling, failing: set<Ref>): World {
    match effect
    case AddDoneCallback(future, ok) => if ok then Watched(w, task, future) else w
    case CancelFuture(future, reply) =>
      if reply.Absorbed? && settles.AtOnce? then Settled(w, future, Cancellation(settles.message)) else w
    case CallSoonSelf(ok) => if ok then w.(ready := w.ready + [Wake(task, None)]) else w
    case Fire(callback) =>
      if callback.callable in failing then w else w.(ready := w.ready + [UserCallback(callback.weight)])
    case _ => w
  }

  function AppliedAll(w: World, task: nat, effects: seq<Effect>, settles: Settling, failing: set<Ref>): (r: World)
    ensures r.tasks == w.tasks && r.ranks == w.ranks && |r.futures| == |w.futures|
    decreases |effects|
  {
    if effects == [] then w
    else AppliedAll(Applied(w, task, effects[0], settles, failing), task, effects[1..], settles, failing)
  }

  /** A task moves to `state` and its calls reach the world. */
  function Installed(w: World, task: nat, state: TaskState, effects: seq<Effect>, settles: Settling, failing: set<Ref>): World
    requires task < |w.tasks|
  {
    AppliedAll(w.(tasks := w.tasks[task := state]), task, effects, settles, failing)
  }

  function Done(w: World, act: Act, failing: set<Ref>): (r: World)
    ensures |r.tasks| == |w.tasks| && r.ranks == w.ranks
  {
    match act
    case OnTask(task, op, settles) =>
      if task >= |w.tasks| then w
      else
        var o := OpOutcome(w.tasks[task], op);
        Installed(w, task, o.state, o.effects, settles, failing)
    case SettleFuture(future, ending) => Settled(w, future, ending)
    case NewFuture => w.(futures := w.futures + [Future(None, [])])
    case Soon(weight) => w.(ready := w.ready + [UserCallback(weight)])
  }

  function DoneAll(w: World, acts: seq<Act>, failing: set<Ref>): (r: World)
    ensures |r.tasks| == |w.tasks| && r.ranks == w.ranks
    decreases |acts|
  {
    if acts == [] then w else DoneAll(Done(w, acts[0], failing), acts[1..], failing)
  }

  // ----- One callback

  function AbandonIn(w: World, t: nat, e: Env): World
    requires t < |w.tasks|
  {
    var closed := if w.tasks[t].coroutine.None? then w else DoneAll(w, e.closeActs, e.failing);
    var o := Finish(closed.tasks[t], InternalError(), Aborted);
    Installed(closed, t, o.state, o.effects, e.settles, e.failing)
  }

  /** The end of a part of a turn: install it, and abandon the task if it asks to. */
  function Concluded(w: World, t: nat, p: Phase, e: Env): World
    requires t < |w.tasks| && !p.Advance?
  {
    var installed := Installed(w, t, p.state, p.effects, e.settles, e.failing);
    if p.Stop? then installed else AbandonIn(installed, t, e)
  }

  /** A whole turn of task `t`: its parts in order, with the acts of the coroutine's
      code in between. */
  function TurnIn(w: World, t: nat, e: Env): World
    requires t < |w.tasks|
  {
    var p := Begin(w.tasks[t], e.turn);
    if !p.Advance? then Concluded(w, t, p, e)
    else
      var entered := Installed(w, t, p.state, p.effects, e.settles, e.failing);
      var ran := DoneAll(entered, e.acts, e.failing);
      var q := Settle(ran.tasks[t], e.turn);
      Concluded(ran, t, q, e)
  }

  /** How a queue entry enters a turn: bare, or with the future that queued it. */
  function WakeOf(w: World, future: Option<nat>): TaskMachine.Wake {
    if future.None? then Bare
    else if future.value < |w.futures| && w.futures[future.value].ending.Some?
    then Woken(w.futures[future.value].ending.value.error)
    else Woken(None)
  }

  function WokenBy(w: World, future: Option<nat>, e: Env): Env {
    e.(turn := e.turn.(wake := WakeOf(w, future)))
  }

  /** The loop runs the handle at the head of its queue. */
  function RunHead(w: World, e: Env): World
    requires w.ready != []
  {
    var popped := w.(ready := w.ready[1..]);
    match w.ready[0]
    case Wake(t, future) =>
      if t >= |w.tasks| then popped
      else
        var turned := TurnIn(popped, t, WokenBy(w, future, e));
        if t < |turned.ranks| then turned.(ranks := turned.ranks[t := e.newRank]) else turned
    case CancelCall(t) => Done(popped, OnTask(t, Cancel(None, e.reply), e.settles), e.failing)
    case UserCallback(_) => DoneAll(popped, e.acts, e.failing)
  }

  // ----- The single-task view

  /** The calls on task `t` among some acts. */
  function OpsOn(t: nat, acts: seq<Act>): seq<Op> {
    if acts == [] then []
    else (if acts[0].OnTask? && acts[0].task == t then [acts[0].op] else []) + OpsOn(t, acts[1..])
  }

  lemma {:induction false} ActsProject(w: World, acts: seq<Act>, failing: set<Ref>, t: nat)
    requires t < |w.tasks|
    ensures DoneAll(w, acts, failing).tasks[t] == RunOps(w.tasks[t], OpsOn(t, acts)).state
    decreases |acts|
  {
    hide OpOutcome, Settled, AppliedAll;
    if acts != [] {
      var next := Done(w, acts[0], failing);
      ActsProject(next, acts[1..], failing, t);
      if acts[0].OnTask? && acts[0].task == t {
        var ops := OpsOn(t, acts);
        assert ops[0] == acts[0].op && ops[1..] == OpsOn(t, acts[1..]);
        assert next.tasks[t] == OpOutcome(w.tasks[t], acts[0].op).state;
      } else {
        SettledKeepsTasks(w, acts[0]);
        assert OpsOn(t, acts) == OpsOn(t, acts[1..]);
        assert next.tasks[t] == w.tasks[t];
      }
    }
  }

  lemma {:induction false} SettledKeepsTasks(w: World, act: Act)
    ensures act.SettleFuture? ==> Settled(w, act.future, act.ending).tasks == w.tasks
  {
  }

  function TaskEnv(t: nat, e: Env): TurnEnv {
    e.turn.(stepOps := OpsOn(t, e.acts), closeOps := OpsOn(t, e.closeActs))
  }

  lemma {:induction false} ConcludedProjects(w: World, t: nat, p: Phase, e: Env)
    requires t < |w.tasks| && !p.Advance?
    ensures |Concluded(w, t, p, e).tasks| == |w.tasks|
    ensures Concluded(w, t, p, e).tasks[t] == Conclude(p, OpsOn(t, e.closeActs)).state
  {
    hide AppliedAll, RunOps, DoneAll, Finish, InternalError;
    if p.Abort? {
      var installed := Installed(w, t, p.state, p.effects, e.settles, e.failing);
      ActsProject(installed, e.closeActs, e.failing, t);
    }
  }

  /** In the crowd each task still behaves as the single-task machine says: its turn
      on the loop is its `Turn`, given the calls other code made on it. */
  lemma {:induction false} TurnProjects(w: World, t: nat, e: Env)
    requires t < |w.tasks|
    ensures |TurnIn(w, t, e).tasks| == |w.tasks|
    ensures TurnIn(w, t, e).tasks[t] == Turn(w.tasks[t], TaskEnv(t, e)).state
  {
    hide AppliedAll, RunOps, DoneAll, Concluded, Conclude, Begin, Settle;
    var s := w.tasks[t];
    SameReplies(s, t, e);
    var p := Begin(s, e.turn);
    if !p.Advance? {
      ConcludedProjects(w, t, p, e);
    } else {
      var entered := Installed(w, t, p.state, p.effects, e.settles, e.failing);
      var ran := DoneAll(entered, e.acts, e.failing);
      ActsProject(entered, e.acts, e.failing, t);
      SameReplies(ran.tasks[t], t, e);
      ConcludedProjects(ran, t, Settle(ran.tasks[t], e.turn), e);
    }
  }

  lemma {:induction false} SameReplies(s: TaskState, t: nat, e: Env)
    ensures Begin(s, TaskEnv(t, e)) == Begin(s, e.turn) && Settle(s, TaskEnv(t, e)) == Settle(s, e.turn)
    ensures !Settle(s, e.turn).Advance?
  {
    hide Finish, InternalError, ReturnResponse, PendingThrow;
  }
}
