/** The whole-run results about one event loop under every interleaving: the gauge,
    answers at most once, and what is left when `schedule` calls race with `stop`. */
module ProtocolRace {
  import opened Wrappers
  import opened Sums
  import opened Protocol
  import opened ProtocolSafety

  // ----- The gauge

  lemma {:induction false} NoneOpen(bits: seq<nat>)
    requires forall i :: 0 <= i < |bits| ==> bits[i] == 0
    ensures Sum(bits) == 0
  {
    SumAtMost(bits, 0);
  }

  lemma {:induction false} SomeOpen(bits: seq<nat>, i: nat)
    requires i < |bits| && bits[i] > 0
    ensures Sum(bits) > 0
  {
    if i > 0 { SomeOpen(bits[1..], i - 1); }
  }

  /** At every step the gauge is the number of schedules that have counted themselves
      in and not built their channel, of channels that still hold their sender, and of
      senders taken but not yet counted out; so it never underflows, and is zero
      exactly when nothing of the kind is left. */
  lemma {:induction false} GaugeConserved(s: State)
    requires Reachable(s)
    ensures s.gauge == OpenCount(s) >= 0
    ensures s.gauge == 0 <==> forall i :: 0 <= i < |s.requests| ==> Open(s.requests[i]) == 0
  {
    ReachableInv(s);
    hide Sum, Reachable;
    var bits := OpenBits(s.requests);
    if forall i :: 0 <= i < |s.requests| ==> Open(s.requests[i]) == 0 {
      NoneOpen(bits);
    } else {
      var i :| 0 <= i < |s.requests| && Open(s.requests[i]) != 0;
      SomeOpen(bits, i);
    }
  }

  /** No channel answers twice, whoever sends: `finish` on the loop, a disposal, the
      refusal path of `schedule`, or `Drop`; and only a request that was never
      allocated is answered by `Drop`. */
  lemma {:induction false} AnsweredAtMostOnce(s: State, i: nat)
    requires Reachable(s) && i < |s.requests|
    ensures var r := s.requests[i];
            && |r.answers| <= 1
            && (r.answers == [FromTurn] ==> r.finished && r.pc.Accepted?)
            && (r.answers == [FromDisposal] ==> r.finished)
            && (r.answers == [FromSchedule] ==> r.pc.Failed?)
            && (r.answers == [SenderDropped] ==> !Past(r.pc) || r.pc.Failed?)
            && (r.channel.Armed? ==> !Unreachable(s, i))
  {
    ReachableInv(s);
    hide Reachable;
    if s.requests[i].channel.Armed? { ArmedIsReachable(s, i); }
    assert RequestOk(s, i);
  }

  // ----- Schedule against stop

  /** The sender went, or is going, through `finish`. */
  predicate Released(r: Request) {
    || ((r.channel.Taken? || r.channel.Lowered?) && r.channel.who.Worker?)
    || FromTurn in r.answers || FromDisposal in r.answers
  }

  predicate Returned(r: Request) {
    r.pc.Accepted? || r.pc.Failed?
  }

  /** The loop is dead, and one or more `stop` calls have all returned. */
  predicate StopsReturned(s: State) {
    && s.phase.Dead?
    && |s.workers| > 1
    && (forall k :: 1 <= k < |s.workers| ==> s.workers[k].role.Stopped?)
  }

  /** So have all `schedule` calls. */
  predicate Over(s: State) {
    StopsReturned(s) && forall i :: 0 <= i < |s.requests| ==> Returned(s.requests[i])
  }

  lemma {:induction false} IdleThread(s: State, k: nat)
    requires Inv(s) && StopsReturned(s) && k < |s.workers|
    ensures s.workers[k].left == {} && s.workers[k].job.None?
  {
    assert ThreadOk(s, k);
  }

  lemma {:induction false} ReturnedRequest(s: State, i: nat)
    requires Inv(s) && StopsReturned(s) && i < |s.requests| && Returned(s.requests[i])
    ensures var r := s.requests[i];
            if i in s.live then r.channel.Armed? && r.pc.Accepted? && s.phase == Dead(false) else r.channel.Resolved?
  {
    assert RequestOk(s, i) && ThreadOk(s, 1);
    if i in s.live { assert LiveOk(s, i); }
    forall k | 0 <= k < |s.workers| ensures s.workers[k].left == {} && s.workers[k].job.None? {
      IdleThread(s, k);
    }
    ReturnedChannel(s.requests[i]);
    if i !in s.live { assert !Covered(s, i); }
  }

  lemma {:induction false} ReturnedChannel(r: Request)
    requires ChannelOk(r) && (r.pc.Accepted? || r.pc.Failed?)
    ensures !r.channel.Unbuilt? && !r.channel.Dropping?
    ensures r.channel.Taken? || r.channel.Lowered? ==> r.channel.who.Worker?
  {
  }

  /** What a race leaves behind, with any number of `stop` calls in any interleaving: if
      the loop closed, then once the `stop`s have returned every request whose
      `schedule` has returned was answered exactly once and is off the registry, and an
      accepted one was answered by finishing. */
  lemma {:induction false} RaceSettles(s: State, i: nat)
    requires Reachable(s) && StopsReturned(s) && s.phase == Dead(true)
    requires i < |s.requests| && Returned(s.requests[i])
    ensures |s.requests[i].answers| == 1 && Open(s.requests[i]) == 0 && i !in s.live
    ensures s.requests[i].pc.Accepted? ==> s.requests[i].finished && Released(s.requests[i])
  {
    ReachableInv(s);
    hide Reachable;
    ReturnedRequest(s, i);
    assert RequestOk(s, i);
  }

  /** With every call over, the registry is empty and the gauge is zero. */
  lemma {:induction false} RaceLeavesNothing(s: State)
    requires Reachable(s) && Over(s) && s.phase == Dead(true)
    ensures s.live == {} && s.gauge == 0
  {
    hide Reachable;
    forall i | 0 <= i < |s.requests| ensures Open(s.requests[i]) == 0 && i !in s.live {
      RaceSettles(s, i);
    }
    assert forall i :: i in s.live ==> LiveOk(s, i) by { ReachableInv(s); }
    GaugeConserved(s);
  }

  // ----- After the close

  /** The loop is closed, and `i` is a request it has not accepted, or none yet. */
  predicate ShutOut(s: State, i: nat) {
    s.phase == Dead(true) && (i < |s.requests| ==> !s.requests[i].pc.Accepted?)
  }

  lemma {:induction false} StaysShutOut(s: State, step: Step, i: nat)
    requires Enabled(s, step) && ShutOut(s, i)
    ensures ShutOut(Next(s, step), i)
  {
    if step.Advance? { AdvanceKeepsPcs(s, step.worker); }
    hide Onward, Advanced;
  }

  lemma {:induction false} AdvanceKeepsPcs(s: State, k: nat)
    requires Busy(s, k)
    ensures var t := Advanced(s, k);
            && t.phase == s.phase && |t.requests| == |s.requests|
            && forall i :: 0 <= i < |s.requests| ==> t.requests[i].pc == s.requests[i].pc
  {
  }

  /** A `schedule` shut out is refused: once it has returned, its request is answered
      and no longer counted, unless a `stop` is just doing that. */
  lemma {:induction false} ShutOutIsAnswered(s: State, i: nat)
    requires Reachable(s) && ShutOut(s, i) && i < |s.requests| && Returned(s.requests[i])
    requires forall k :: 0 <= k < |s.workers| ==> !Has(s.workers[k], i)
    ensures |s.requests[i].answers| == 1 && Open(s.requests[i]) == 0 && i !in s.live
  {
    ReachableInv(s);
    hide Reachable;
    assert RequestOk(s, i);
    assert i in s.live ==> LiveOk(s, i);
    ReturnedChannel(s.requests[i]);
  }

  /** Every request counted in after the close is shut out for good. */
  lemma {:induction false} LateScheduleRefused(run: seq<State>, steps: seq<Step>, n: nat, m: nat, i: nat)
    requires IsRun(run, steps) && n <= m < |run| && run[n].phase == Dead(true) && |run[n].requests| <= i
    ensures ShutOut(run[m], i)
    decreases m
  {
    hide Next, Enabled, ShutOut;
    if m > n {
      LateScheduleRefused(run, steps, n, m - 1, i);
      StaysShutOut(run[m - 1], steps[m - 1], i);
    } else {
      assert ShutOut(run[m], i) by { NoneYet(run[m], i); }
    }
  }

  lemma {:induction false} NoneYet(s: State, i: nat)
    requires s.phase == Dead(true) && |s.requests| <= i
    ensures ShutOut(s, i)
  {
  }

  // ----- Who can be stranded when closing the loop fails

  /** The entry was made after the last drain. */
  ghost predicate ListedTooLate(steps: seq<Step>, i: nat) {
    exists n :: 0 <= n < |steps| && steps[n] == Insert(i) && NoDrainAfter(steps, n)
  }

  predicate NoDrainAfter(steps: seq<Step>, n: nat) {
    forall m :: n < m < |steps| ==> !steps[m].Drain?
  }

  lemma {:induction false} ListingStep(s: State, step: Step, i: nat)
    requires Enabled(s, step) && i in Next(s, step).live
    ensures !step.Drain? && (i !in s.live ==> step == Insert(i))
  {
  }

  /** Whoever is on the live list got there by an insertion with no drain since. */
  lemma {:induction false} LiveSince(run: seq<State>, steps: seq<Step>, i: nat)
    requires IsRun(run, steps) && i in run[|steps|].live
    ensures ListedTooLate(steps, i)
    decreases |steps|
  {
    var n := |steps| - 1;
    assert Enabled(run[n], steps[n]) && run[n + 1] == Next(run[n], steps[n]);
    var before, earlier := run[..n + 1], steps[..n];
    assert IsRun(before, earlier);
    ListingStep(run[n], steps[n], i);
    hide Next, Enabled;
    if i in run[n].live {
      LiveSince(before, earlier, i);
      var m :| 0 <= m < n && earlier[m] == Insert(i) && NoDrainAfter(earlier, m);
      assert steps[m] == Insert(i);
      assert NoDrainAfter(steps, m) by {
        forall l | m < l < |steps| ensures !steps[l].Drain? {
          if l < n { assert earlier[l] == steps[l]; }
        }
      }
    } else {
      assert NoDrainAfter(steps, n);
    }
  }

  /** Refused for good. */
  predicate Rejected(pc: Pc) {
    pc.SendTake? || pc.SendLower? || pc.SendDeliver? || pc.Failed?
  }

  lemma {:induction false} StaysListed(s: State, step: Step, i: nat)
    requires Inv(s) && Enabled(s, step) && !step.Drain? && s.phase.Dead? && i < |s.requests|
    requires i in s.live || Rejected(s.requests[i].pc)
    ensures var t := Next(s, step);
            t.phase.Dead? && i < |t.requests| && (i in t.live || Rejected(t.requests[i].pc))
  {
    hide OpenCount, RequestOk, LiveOk, StageOk, Onward;
    if step.Advance? { assert ThreadOk(s, step.worker); }
  }

  lemma {:induction false} StaysListedOn(run: seq<State>, steps: seq<Step>, n: nat, i: nat)
    requires IsRun(run, steps) && 0 < n <= |steps| && NoDrainAfter(steps, n - 1)
    requires run[n].phase.Dead? && i < |run[n].requests| && i in run[n].live
    ensures var s := run[|steps|]; i < |s.requests| && (i in s.live || Rejected(s.requests[i].pc))
    ensures run[|steps|].phase.Dead?
    decreases |steps|
  {
    if n < |steps| {
      var m := |steps| - 1;
      var before, earlier := run[..m + 1], steps[..m];
      assert NoDrainAfter(earlier, n - 1) by {
        forall l | n - 1 < l < m ensures !earlier[l].Drain? {
          assert earlier[l] == steps[l];
        }
      }
      StaysListedOn(before, earlier, n, i);
      RunKeeps(run, steps, m);
      hide Next, Enabled, Inv;
      StaysListed(run[m], steps[m], i);
    }
  }

  /** Once the winner has drained, it has. */
  lemma {:induction false} SweptBefore(run: seq<State>, steps: seq<Step>, n: nat)
    requires IsRun(run, steps) && n <= |steps| && run[|steps|].swept
    requires forall m :: n <= m < |steps| ==> !steps[m].Drain?
    ensures run[n].swept
    decreases |steps|
  {
    if n < |steps| {
      var m := |steps| - 1;
      assert run[m + 1] == Next(run[m], steps[m]) && !steps[m].Drain?;
      assert run[m].swept by { hide Advanced, Scheduled; }
      SweptBefore(run[..m + 1], steps[..m], n);
    }
  }

  /** Exactly which requests a race can strand: the accepted ones listed after the last
      drain; and there are none unless closing the loop failed. */
  lemma {:induction false} StrandedExactly(run: seq<State>, steps: seq<Step>, i: nat)
    requires IsRun(run, steps) && Over(run[|steps|]) && i < |run[|steps|].requests|
    ensures var r := run[|steps|].requests[i];
            && (r.answers == [] <==> r.pc.Accepted? && ListedTooLate(steps, i))
            && (r.answers == [] ==> i in run[|steps|].live && r.channel.Armed? && run[|steps|].phase == Dead(false))
            && |r.answers| <= 1
  {
    var s := run[|steps|];
    var r := s.requests[i];
    RunKeeps(run, steps, |steps|);
    assert ThreadOk(s, 1) && RequestOk(s, i);
    ReturnedRequest(s, i);
    if i in s.live {
      assert LiveOk(s, i);
      LiveSince(run, steps, i);
    } else if r.pc.Accepted? && ListedTooLate(steps, i) {
      var n :| 0 <= n < |steps| && steps[n] == Insert(i) && NoDrainAfter(steps, n);
      hide Inv, Over, RequestOk;
      ListedStays(run, steps, n, i);
      assert false;
    }
  }

  lemma {:induction false} ListedStays(run: seq<State>, steps: seq<Step>, n: nat, i: nat)
    requires IsRun(run, steps) && n < |steps| && steps[n] == Insert(i) && NoDrainAfter(steps, n)
    requires run[|steps|].swept
    ensures var s := run[|steps|]; i < |s.requests| && (i in s.live || Rejected(s.requests[i].pc))
  {
    SweptBefore(run, steps, n + 1);
    RunKeeps(run, steps, n + 1);
    assert run[n + 1] == Next(run[n], steps[n]);
    assert i in run[n + 1].live && i < |run[n + 1].requests|;
    hide Next, Enabled;
    StaysListedOn(run, steps, n + 1, i);
  }

  // ----- Who answered

  predicate Delivering(s: State, k: nat, i: nat) {
    Busy(s, k) && s.workers[k].job.value.request == i && s.workers[k].job.value.stage.Deliver?
  }

  /** What the step sends request `i`, and who does: the loop thread at the end of a turn, a
      `stop` at the end of a disposal, the request's own `schedule`, or `Drop`. */
  function AnswerOf(s: State, step: Step, i: nat): Option<Answer> {
    if step == Advance(0) && Delivering(s, 0, i) then Some(FromTurn)
    else if step.Advance? && Delivering(s, step.worker, i) then Some(FromDisposal)
    else if step == SendRefusal(i) && At(s, i, SendDeliver) then Some(FromSchedule)
    else if step == AllocFail(i) || step == Reclaim(i) then Some(SenderDropped)
    else None
  }

  lemma {:induction false} AnswerStep(s: State, step: Step, i: nat)
    requires Enabled(s, step)
    ensures |s.requests| <= |Next(s, step).requests|
    ensures AnswerOf(s, step, i).Some? ==> i < |s.requests|
    ensures i < |s.requests| ==>
              var answer := AnswerOf(s, step, i);
              Next(s, step).requests[i].answers == s.requests[i].answers + if answer.Some? then [answer.value] else []
    ensures |s.requests| <= i < |Next(s, step).requests| ==> Next(s, step).requests[i].answers == []
  {
    hide Advanced, Scheduled;
    if step.Advance? {
      AdvanceAnswers(s, step.worker, i);
    } else if OnRequest(step) {
      MoveAnswers(s, step, i);
    }
  }

  lemma {:induction false} MoveAnswers(s: State, step: Step, i: nat)
    requires OnRequest(step) && Enabled(s, step)
    ensures |Scheduled(s, step).requests| == |s.requests|
    ensures AnswerOf(s, step, i).Some? ==> i < |s.requests|
    ensures i < |s.requests| ==>
              var answer := AnswerOf(s, step, i);
              Scheduled(s, step).requests[i].answers == s.requests[i].answers + if answer.Some? then [answer.value] else []
  {
    hide Busy;
  }

  lemma {:induction false} AdvanceAnswers(s: State, k: nat, i: nat)
    requires Busy(s, k)
    ensures |Advanced(s, k).requests| == |s.requests|
    ensures i < |s.requests| ==>
              var sent := if Delivering(s, k, i) then [if k == 0 then FromTurn else FromDisposal] else [];
              Advanced(s, k).requests[i].answers == s.requests[i].answers + sent
  {
    hide Onward;
  }

  /** Over every run a request holds an answer if and only if a step sent it that one. */
  lemma {:induction false} AnswerHasSender(run: seq<State>, steps: seq<Step>, n: nat, i: nat, answer: Answer)
    requires IsRun(run, steps) && n < |run|
    ensures i < |run[n].requests| && answer in run[n].requests[i].answers <==>
              exists k :: 0 <= k < n && AnswerOf(run[k], steps[k], i) == Some(answer)
  {
    hide Next, Enabled, AnswerOf;
    if n > 0 {
      AnswerHasSender(run, steps, n - 1, i, answer);
      AnswerStep(run[n - 1], steps[n - 1], i);
    }
  }
}
