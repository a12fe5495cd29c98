/** The scheduler's Start and Stop: a mutex-protected flag, a context, a wait group and three loops
    whose goroutines read the scheduler's context field only when they first run. */
module Lifecycle {

  // A loop remembers which Start spawned it and, once it has looked, which context it runs under.
  datatype Loop = Spawned(start: nat) | Looping(start: nat, ctx: nat) | Ended(start: nat, ctx: nat)

  // ctx is the context made by the last Start; wg the wait group's counter.
  datatype Scheduler = Scheduler(running: bool, ctx: nat, cancelled: set<nat>, loops: seq<Loop>, wg: nat)

  function NewScheduler(): Scheduler { Scheduler(false, 0, {}, [], 0) }

  function Started(s: Scheduler): Scheduler {
    if s.running then s else
      var c := s.ctx + 1;
      Scheduler(true, c, s.cancelled, s.loops + [Spawned(c), Spawned(c), Spawned(c)], s.wg + 3)
  }

  // Stop up to wg.Wait().
  function Cancelling(s: Scheduler): Scheduler { s.(cancelled := s.cancelled + {s.ctx}) }

  // Stop once wg.Wait() has returned.
  function Stopped(s: Scheduler): Scheduler { s.(running := false) }

  // The goroutine gets to run and evaluates s.ctx now.
  function LoopReads(s: Scheduler, k: nat): Scheduler {
    if k < |s.loops| && s.loops[k].Spawned? then s.(loops := s.loops[k := Looping(s.loops[k].start, s.ctx)]) else s
  }

  // A loop returns when its context is done, by itself or because the process shuts down.
  function LoopEnds(s: Scheduler, k: nat, shutdown: bool): Scheduler {
    if k < |s.loops| && s.loops[k].Looping? && (shutdown || s.loops[k].ctx in s.cancelled) && s.wg > 0
    then s.(loops := s.loops[k := Ended(s.loops[k].start, s.loops[k].ctx)], wg := s.wg - 1) else s
  }

  // ---------- what always holds ----------

  ghost function Alive(loops: seq<Loop>): nat {
    if loops == [] then 0 else Alive(loops[..|loops| - 1]) + if loops[|loops| - 1].Ended? then 0 else 1
  }

  predicate LoopOk(s: Scheduler, l: Loop) {
    match l
    case Spawned(start) => start == s.ctx && s.running
    case Looping(start, ctx) => ctx == start == s.ctx && s.running
    case Ended(start, ctx) => ctx == start
  }

  /** The wait group counts the loops alive; only the loops of the last Start are alive; and every
      loop that has looked at the context field found the context of its own Start. No context to come has
      been cancelled. */
  ghost predicate SchedulerOk(s: Scheduler) {
    && s.wg == Alive(s.loops) && (forall k :: 0 <= k < |s.loops| ==> LoopOk(s, s.loops[k]))
    && forall c :: c in s.cancelled ==> c <= s.ctx
  }

  lemma {:induction false} AliveUpdate(loops: seq<Loop>, k: nat, l: Loop)
    requires k < |loops|
    ensures Alive(loops[k := l]) == Alive(loops) - (if loops[k].Ended? then 0 else 1) + (if l.Ended? then 0 else 1)
  {
    var n := |loops| - 1;
    if k < n {
      assert loops[k := l][..n] == loops[..n][k := l];
      AliveUpdate(loops[..n], k, l);
    } else {
      assert loops[k := l][..n] == loops[..n];
    }
  }

  lemma {:induction false} AliveZero(loops: seq<Loop>, k: nat)
    requires k < |loops|
    ensures Alive(loops) == 0 ==> loops[k].Ended?
  {
    if k < |loops| - 1 { AliveZero(loops[..|loops| - 1], k); }
  }

  lemma AliveAppend(loops: seq<Loop>, c: nat)
    ensures Alive(loops + [Spawned(c), Spawned(c), Spawned(c)]) == Alive(loops) + 3
  {
    AliveSnoc(loops, Spawned(c));
    AliveSnoc(loops + [Spawned(c)], Spawned(c));
    AliveSnoc(loops + [Spawned(c)] + [Spawned(c)], Spawned(c));
    assert loops + [Spawned(c), Spawned(c), Spawned(c)] == loops + [Spawned(c)] + [Spawned(c)] + [Spawned(c)];
  }

  lemma AliveSnoc(loops: seq<Loop>, l: Loop)
    ensures Alive(loops + [l]) == Alive(loops) + if l.Ended? then 0 else 1
  {
    assert (loops + [l])[..|loops|] == loops;
  }

  // A stopped scheduler has no loop left, so a fresh context can disturb nobody.
  lemma StartKeeps(s: Scheduler)
    requires SchedulerOk(s) && (!s.running ==> s.wg == 0)
    ensures SchedulerOk(Started(s))
  {
    if !s.running {
      AliveAppend(s.loops, s.ctx + 1);
      forall k | 0 <= k < |s.loops| ensures s.loops[k].Ended? { AliveZero(s.loops, k); }
    }
  }

  /** Starting a stopped scheduler adds exactly three loops, all alive under a context that is new and not
      cancelled; starting a running one changes nothing. */
  lemma StartAddsThree(s: Scheduler)
    requires SchedulerOk(s)
    ensures var s' := Started(s);
            if s.running then s' == s
            else && s'.running && Alive(s'.loops) == Alive(s.loops) + 3 && s'.wg == s.wg + 3
                 && |s'.loops| == |s.loops| + 3 && s'.loops[..|s.loops|] == s.loops
                 && s'.ctx != s.ctx && s'.ctx !in s'.cancelled
  {
    if !s.running { AliveAppend(s.loops, s.ctx + 1); }
  }

  lemma StopKeeps(s: Scheduler)
    requires SchedulerOk(s) && s.wg == 0
    ensures SchedulerOk(Stopped(s))
  {
    forall k | 0 <= k < |s.loops| ensures s.loops[k].Ended? { AliveZero(s.loops, k); }
  }

  lemma LoopKeeps(s: Scheduler, k: nat, shutdown: bool)
    requires SchedulerOk(s)
    ensures SchedulerOk(LoopReads(s, k)) && SchedulerOk(LoopEnds(s, k, shutdown)) && SchedulerOk(Cancelling(s))
  {
    if k < |s.loops| {
      AliveUpdate(s.loops, k, Looping(s.loops[k].start, s.ctx));
      if s.loops[k].Looping? { AliveUpdate(s.loops, k, Ended(s.loops[k].start, s.loops[k].ctx)); }
    }
  }

  // ---------- the object ----------

  class SchedulerObject {
    var running: bool
    var ctx: nat
    var cancelled: set<nat>
    var loops: seq<Loop>
    var wg: nat

    ghost function State(): Scheduler
      reads this
    {
      Scheduler(running, ctx, cancelled, loops, wg)
    }

    ghost predicate Valid()
      reads this
    {
      SchedulerOk(State()) && (!running ==> wg == 0)
    }

    constructor ()
      ensures Valid() && State() == NewScheduler()
    {
      running, ctx, cancelled, loops, wg := false, 0, {}, [], 0;
    }

    method Start()
      requires Valid()
      modifies this
      ensures Valid() && running
      ensures old(running) ==> State() == old(State())
      ensures !old(running) ==> wg == 3 && |loops| == |old(loops)| + 3 && ctx != old(ctx) && ctx !in cancelled
      ensures State() == Started(old(State()))
    {
      StartKeeps(State());
      StartAddsThree(State());
      if running { return; }
      ctx := ctx + 1;
      wg := wg + 3;
      loops := loops + [Spawned(ctx), Spawned(ctx), Spawned(ctx)];
      running := true;
    }

    /** cancel() and wg.Wait(): the loops take their remaining steps in any order; every one of them
        can, so the wait ends. */
    method Stop()
      requires Valid()
      modifies this
      ensures Valid() && !running && wg == 0 && ctx == old(ctx)
      ensures |loops| == |old(loops)| && forall k :: 0 <= k < |loops| ==>
                loops[k].Ended? && loops[k].start == old(loops)[k].start && loops[k].ctx == loops[k].start
    {
      if !running {
        forall k | 0 <= k < |loops| ensures loops[k].Ended? { AliveZero(loops, k); }
        return;
      }
      cancelled := cancelled + {ctx};
      while wg > 0
        invariant SchedulerOk(State()) && running && ctx == old(ctx) && ctx in cancelled
        invariant |loops| == |old(loops)| && forall k :: 0 <= k < |loops| ==> loops[k].start == old(loops)[k].start
        decreases Remaining(loops)
      {
        LoopMoves();
      }
      StopKeeps(State());
      forall k | 0 <= k < |loops| ensures loops[k].Ended? { AliveZero(loops, k); }
      running := false;
    }

    // One loop alive takes its next step, which brings it closer to its end.
    method LoopMoves()
      requires SchedulerOk(State()) && wg > 0 && ctx in cancelled
      modifies this
      ensures SchedulerOk(State()) && running == old(running) && ctx == old(ctx) && cancelled == old(cancelled)
      ensures |loops| == |old(loops)| && Remaining(loops) < Remaining(old(loops))
      ensures forall k :: 0 <= k < |loops| ==> loops[k].start == old(loops)[k].start
    {
      var k := PickAlive();
      LoopKeeps(State(), k, false);
      if loops[k].Spawned? {
        RemainingUpdate(loops, k, Looping(loops[k].start, ctx));
        loops := loops[k := Looping(loops[k].start, ctx)];
      } else {
        RemainingUpdate(loops, k, Ended(loops[k].start, loops[k].ctx));
        loops, wg := loops[k := Ended(loops[k].start, loops[k].ctx)], wg - 1;
      }
    }

    // Some loop the runtime may schedule next.
    method PickAlive() returns (k: nat)
      requires wg > 0 && wg == Alive(loops)
      ensures k < |loops| && !loops[k].Ended?
    {
      k := 0;
      while k < |loops| && loops[k].Ended?
        invariant 0 <= k <= |loops|
        invariant forall i :: 0 <= i < k ==> loops[i].Ended?
      {
        k := k + 1;
      }
      if k == |loops| { AllEnded(loops); }
    }
  }

  lemma {:induction false} AllEnded(loops: seq<Loop>)
    requires forall k :: 0 <= k < |loops| ==> loops[k].Ended?
    ensures Alive(loops) == 0
  {
    if loops == [] {
    } else {
      AllEnded(loops[..|loops| - 1]);
    }
  }

  // Steps the loops can still take.
  function StepsLeft(l: Loop): nat {
    match l
    case Spawned(_) => 2
    case Looping(_, _) => 1
    case Ended(_, _) => 0
  }

  function Remaining(loops: seq<Loop>): nat {
    if loops == [] then 0 else StepsLeft(loops[0]) + Remaining(loops[1..])
  }

  lemma {:induction false} RemainingUpdate(loops: seq<Loop>, k: nat, l: Loop)
    requires k < |loops|
    ensures Remaining(loops[k := l]) == Remaining(loops) - StepsLeft(loops[k]) + StepsLeft(l)
  {
    if k == 0 {
      assert loops[k := l][1..] == loops[1..];
    } else {
      assert loops[k := l][1..] == loops[1..][k - 1 := l];
      RemainingUpdate(loops[1..], k - 1, l);
    }
  }
}
