/** `Server::shutdown_impl` (crates/core/src/lib.rs) as code over the event loop
    objects, for a caller that nobody interferes with. */
module Servers {
  import opened Wrappers
  import opened Protocol
  import opened ProtocolSafety
  import opened ProtocolRace
  import opened EventLoops

  /** What a shutdown does, in order: the timed waits report whether they drained. */
  datatype Event = Signalled | Waited(drained: bool) | Cancelled(loop: nat) | WaitedAgain(drained: bool) | StoppedLoop(loop: nat)

  function Cancels(n: nat): seq<Event> {
    seq(n, j requires 0 <= j < n => Cancelled(j))
  }

  function Stops(n: nat): seq<Event> {
    seq(n, j requires 0 <= j < n => StoppedLoop(j))
  }

  /** The order the documentation promises: cancellation only after the first wait ran
      out, loops last; the waits only for the caller that finds the receiver. */
  function Plan(loops: nat, slot: bool, drained: bool, drainedAgain: bool): seq<Event> {
    [Signalled] + (if slot then Grace(loops, drained, drainedAgain) else []) + Stops(loops)
  }

  /** One thing after another: the signal, the drain, the cancellation loop by loop, the
      second drain, the stopping loop by loop; nothing twice. */
  predicate InOrder(events: seq<Event>) {
    forall i, j :: 0 <= i < j < |events| ==> Before(events[i], events[j])
  }

  predicate Before(a: Event, b: Event) {
    match b
    case Signalled => false
    case Waited(_) => a.Signalled?
    case Cancelled(loop) => a.Signalled? || a.Waited? || (a.Cancelled? && a.loop < loop)
    case WaitedAgain(_) => a.Signalled? || a.Waited? || a.Cancelled?
    case StoppedLoop(loop) => a.StoppedLoop? ==> a.loop < loop
  }

  /** Who waits, who is cancelled and what is stopped. */
  ghost predicate Does(events: seq<Event>, loops: nat, slot: bool, drained: bool, drainedAgain: bool) {
    && Signalled in events
    && (forall x :: Waited(x) in events <==> slot && x == drained)
    && (forall j: nat :: Cancelled(j) in events <==> slot && !drained && j < loops)
    && (forall x :: WaitedAgain(x) in events <==> slot && !drained && x == drainedAgain)
    && (forall j: nat :: StoppedLoop(j) in events <==> j < loops)
  }

  lemma {:induction false} LoopEvents(n: nat, e: Event)
    ensures e in Cancels(n) <==> e.Cancelled? && e.loop < n
    ensures e in Stops(n) <==> e.StoppedLoop? && e.loop < n
    ensures InOrder(Cancels(n)) && InOrder(Stops(n))
  {
    if e.Cancelled? && e.loop < n { assert Cancels(n)[e.loop] == e; }
    if e.StoppedLoop? && e.loop < n { assert Stops(n)[e.loop] == e; }
  }

  lemma {:induction false} JoinedInOrder(a: seq<Event>, b: seq<Event>)
    requires InOrder(a) && InOrder(b) && forall x, y :: x in a && y in b ==> Before(x, y)
    ensures InOrder(a + b)
  {
    hide Before;
  }

  /** What comes between the signal and the stops, for the caller that finds the receiver. */
  function Grace(loops: nat, drained: bool, drainedAgain: bool): seq<Event> {
    [Waited(drained)] + if drained then [] else Cancels(loops) + [WaitedAgain(drainedAgain)]
  }

  lemma {:induction false} GraceInOrder(loops: nat, drained: bool, drainedAgain: bool, e: Event)
    ensures InOrder(Grace(loops, drained, drainedAgain))
    ensures e in Grace(loops, drained, drainedAgain) <==>
              e == Waited(drained) || (!drained && ((e.Cancelled? && e.loop < loops) || e == WaitedAgain(drainedAgain)))
  {
    hide Cancels, Stops, InOrder;
    LoopEvents(loops, e);
    forall x ensures x in Cancels(loops) ==> x.Cancelled? { LoopEvents(loops, x); }
    OneInOrder(Waited(drained));
    OneInOrder(WaitedAgain(drainedAgain));
    JoinedInOrder(Cancels(loops), [WaitedAgain(drainedAgain)]);
    JoinedInOrder([Waited(drained)], Cancels(loops) + [WaitedAgain(drainedAgain)]);
    assert [Waited(drained)] + [] == [Waited(drained)];
  }

  lemma {:induction false} OneInOrder(e: Event)
    ensures InOrder([e])
  {
  }

  lemma {:induction false} PlanIsOrdered(loops: nat, slot: bool, drained: bool, drainedAgain: bool)
    ensures InOrder(Plan(loops, slot, drained, drainedAgain))
  {
    hide Cancels, Stops, Grace, InOrder;
    var grace := if slot then Grace(loops, drained, drainedAgain) else [];
    forall x
      ensures x in Stops(loops) ==> x.StoppedLoop?
      ensures x in grace ==> !x.Signalled? && !x.StoppedLoop?
    {
      LoopEvents(loops, x);
      GraceInOrder(loops, drained, drainedAgain, x);
    }
    OneInOrder(Signalled);
    LoopEvents(loops, Signalled);
    GraceInOrder(loops, drained, drainedAgain, Signalled);
    assert InOrder([]) by { NoneInOrder(); }
    JoinedInOrder([Signalled], grace);
    JoinedInOrder([Signalled] + grace, Stops(loops));
  }

  lemma {:induction false} NoneInOrder()
    ensures InOrder([])
  {
  }

  lemma {:induction false} PlanDoes(loops: nat, slot: bool, drained: bool, drainedAgain: bool)
    ensures Does(Plan(loops, slot, drained, drainedAgain), loops, slot, drained, drainedAgain)
  {
    forall x
      ensures x in Plan(loops, slot, drained, drainedAgain) <==>
                || x == Signalled || (x.StoppedLoop? && x.loop < loops)
                || (slot && (x == Waited(drained) || (!drained && ((x.Cancelled? && x.loop < loops) || x == WaitedAgain(drainedAgain)))))
    {
      hide Cancels, Stops, Grace;
      LoopEvents(loops, x);
      GraceInOrder(loops, drained, drainedAgain, x);
    }
    hide Plan;
  }

  lemma {:induction false} PlanFollowed(before: seq<Event>, after: seq<Event>, loops: nat, slot: bool, drained: bool, drainedAgain: bool)
    requires after == before + [Signalled]
                      + (if slot then [Waited(drained)] + (if drained then [] else Cancels(loops) + [WaitedAgain(drainedAgain)]) else [])
                      + Stops(loops)
    ensures before <= after && InOrder(after[|before|..]) && Does(after[|before|..], loops, slot, drained, drainedAgain)
  {
    hide InOrder, Does, Cancels, Stops;
    PlanIsOrdered(loops, slot, drained, drainedAgain);
    PlanDoes(loops, slot, drained, drainedAgain);
    assert after[|before|..] == Plan(loops, slot, drained, drainedAgain);
  }

  /** The queue `after` is `before` with each of `live` asked once, the refused aside. */
  ghost predicate Asked(before: seq<nat>, live: set<nat>, refused: set<nat>, after: seq<nat>) {
    exists asked :: after == before + asked && |asked| == |live - refused| && forall i :: i in asked <==> i in live && i !in refused
  }

  lemma {:induction false} AskedOnce(before: seq<nat>, live: set<nat>, refused: set<nat>, asked: seq<nat>)
    requires |asked| == |live - refused| && forall i :: i in asked <==> i in live && i !in refused
    ensures Asked(before, live, refused, before + asked)
  {
  }

  class Server {
    const loops: seq<EventLoop>
    var signalled: bool
    var slot: bool
    var events: seq<Event>

    /** No `stop` is under way on the loop, and its thread is between callbacks. */
    ghost predicate Quiet(l: EventLoop)
      reads l
    {
      && l.Valid() && |l.workers| > 0 && l.workers[0].job.None?
      && forall k :: 1 <= k < |l.workers| ==> l.workers[k].role.Stopped?
    }

    ghost predicate Valid()
      reads this, loops
    {
      && (forall i, j :: 0 <= i < j < |loops| ==> loops[i] != loops[j])
      && (forall j :: 0 <= j < |loops| ==> Quiet(loops[j]))
    }

    constructor (loops: seq<EventLoop>)
      requires forall i, j :: 0 <= i < j < |loops| ==> loops[i] != loops[j]
      requires forall j :: 0 <= j < |loops| ==> loops[j].Valid() && loops[j].State() == STARTED
      ensures Valid() && this.loops == loops && slot && events == []
    {
      this.loops := loops;
      signalled, slot, events := false, true, [];
    }

    /** A closed loop refuses whatever is queued on it. */
    predicate Refusals(refused: seq<set<nat>>)
      reads loops
    {
      |refused| == |loops| && forall j :: 0 <= j < |loops| && loops[j].phase == Dead(true) ==> loops[j].live <= refused[j]
    }

    /** Signal, drain, cancel, drain again, stop; `refused` says whose cancellation cannot
        be queued and `closes` which loops close. */
    method ShutdownImpl(drained: bool, drainedAgain: bool, refused: seq<set<nat>>, closes: seq<bool>)
      requires Valid() && |closes| == |loops| && Refusals(refused)
      modifies this`signalled, this`slot, this`events, loops
      ensures Valid() && signalled && !slot
      ensures old(events) <= events
      ensures InOrder(events[|old(events)|..]) && Does(events[|old(events)|..], |loops|, old(slot), drained, drainedAgain)
      ensures forall j :: 0 <= j < |loops| ==> StopsReturned(loops[j].State()) && loops[j].live == {}
      ensures old(slot) && !drained ==> forall j :: 0 <= j < |loops| ==> Asked(old(loops[j].cancels), old(loops[j].live), refused[j], loops[j].cancels)
      ensures !(old(slot) && !drained) ==> forall j :: 0 <= j < |loops| ==> loops[j].cancels == old(loops[j].cancels)
    {
      hide Reachable, StopsReturned, Asked, InOrder, Does, Plan, Grace, Cancels, Stops;
      signalled := true;
      events := events + [Signalled];
      var mine := slot;
      slot := false;
      if mine {
        events := events + [Waited(drained)];
        if !drained {
          CancelAll(refused);
          events := events + [WaitedAgain(drainedAgain)];
        }
      }
      StopAll(closes);
      PlanFollowed(old(events), events, |loops|, mine, drained, drainedAgain);
    }

    /** Every loop in order: each of its live tasks is asked once, refusals aside. */
    method CancelAll(refused: seq<set<nat>>)
      requires Valid() && Refusals(refused)
      modifies this`events, loops`cancels
      ensures events == old(events) + Cancels(|loops|)
      ensures forall j :: 0 <= j < |loops| ==> Asked(old(loops[j].cancels), loops[j].live, refused[j], loops[j].cancels)
    {
      hide Reachable, Asked, Next;
      for j := 0 to |loops|
        invariant events == old(events) + Cancels(j)
        invariant forall i :: 0 <= i < j ==> Asked(old(loops[i].cancels), loops[i].live, refused[i], loops[i].cancels)
        invariant forall i :: j <= i < |loops| ==> loops[i].cancels == old(loops[i].cancels)
      {
        var before := loops[j].cancels;
        var asked := loops[j].CancelInFlight(refused[j]);
        AskedOnce(before, loops[j].live, refused[j], asked);
        events := events + [Cancelled(j)];
      }
    }

    method StopAll(closes: seq<bool>)
      requires Valid() && |closes| == |loops|
      modifies this`events, loops
      ensures Valid() && events == old(events) + Stops(|loops|)
      ensures forall j :: 0 <= j < |loops| ==> StopsReturned(loops[j].State()) && loops[j].live == {}
      ensures forall j :: 0 <= j < |loops| ==> loops[j].cancels == old(loops[j].cancels)
    {
      hide Reachable;
      for j := 0 to |loops|
        invariant Valid() && events == old(events) + Stops(j)
        invariant forall i :: 0 <= i < j ==> StopsReturned(loops[i].State()) && loops[i].live == {}
        invariant forall i :: 0 <= i < |loops| ==> loops[i].cancels == old(loops[i].cancels)
      {
        loops[j].Stop(closes[j]);
        events := events + [StoppedLoop(j)];
      }
    }
  }
}
